/** Directories of objects: they are made with the first insert of a name, and go only with the bucket. */
module Placing {

  import opened Bytes
  import opened Checksums
  import opened Database
  import opened FileMedia
  import opened FileStore
  import opened Mirroring
  import opened Pathing
  import opened Posix
  import opened Resources
  import opened Shelves
  import opened Worlds

  /** Every directory on the way to the object is there. */
  predicate HasDir(fs: Fs, b: string, slot: Slot)
    requires slot.media != []
  {
    b in fs.trees && Prefixes(Dir(slot.media)) <= fs.trees[b].dirs
  }

  lemma DirIsThere(fs: Fs, b: string, slot: Slot)
    requires slot.media != [] && HasDir(fs, b, slot)
    ensures IsDir(fs.trees[b], Dir(slot.media))
  {
    assert Dir(slot.media) != [] ==> Dir(slot.media) in Prefixes(Dir(slot.media));
  }

  /** The directory of every generation in the index, live or not, is there. */
  ghost predicate PlacedIn(index: Index, fs: Fs, slots: Slots)
    requires Named(slots)
  {
    match index
    case Index(_, objects, _, _) =>
      forall b, key :: b in objects && key in objects[b] && key.name in slots ==> HasDir(fs, b, slots[key.name])
  }

  ghost predicate Placed(w: World, slots: Slots)
    requires Named(slots)
  {
    PlacedIn(w.index, w.store.fs, slots)
  }

  lemma HasItsDir(w: World, slots: Slots, b: string, key: Key)
    requires Named(slots) && Placed(w, slots) && key.name in slots && Generation(w.index, b, key).Some?
    ensures HasDir(w.store.fs, b, slots[key.name]) && IsDir(w.store.fs.trees[b], Dir(slots[key.name].media))
  {
    assert HasDir(w.store.fs, b, slots[key.name]);
    DirIsThere(w.store.fs, b, slots[key.name]);
  }

  /** No directory goes. */
  ghost predicate DirsGrow(before: Fs, after: Fs) {
    match before
    case Fs(trees, _, _) => forall b :: b in trees ==> b in after.trees && trees[b].dirs <= after.trees[b].dirs
  }

  lemma DirsGrowOn(a: Fs, b: Fs, c: Fs)
    requires DirsGrow(a, b) && DirsGrow(b, c)
    ensures DirsGrow(a, c)
  {
  }

  // ---- File system calls ----

  lemma MakeDirsGrows(fs: Fs, b: string, dir: Path)
    ensures var r := MakeDirs(fs, b, dir);
            r.Ok? ==> DirsGrow(fs, r.value) && b in r.value.trees && Prefixes(dir) <= r.value.trees[b].dirs
  {
  }

  lemma WriteGrows(fs: Fs, place: Place, content: Content)
    requires place.path != []
    ensures var r := WriteAtomic(fs, place, content); r.Ok? ==> DirsGrow(fs, r.value)
  {
  }

  lemma DropGrows(fs: Fs, place: Place)
    ensures DirsGrow(fs, DropName(fs, place))
  {
  }

  lemma LinkGrows(fs: Fs, source: Place, destination: Place)
    requires destination.path != []
    ensures var r := Link(fs, source, destination); r.Ok? ==> DirsGrow(fs, r.value)
    ensures var r := Rename(fs, source, destination); r.Ok? ==> DirsGrow(fs, r.value)
    ensures var r := Unlink(fs, source); r.Ok? ==> DirsGrow(fs, r.value)
  {
  }

  lemma CloseGrows(fs: Fs, d: Descriptor)
    ensures DirsGrow(fs, Close(fs, d))
  {
  }

  lemma DirStays(before: Fs, after: Fs, b: string, slot: Slot)
    requires slot.media != [] && HasDir(before, b, slot) && DirsGrow(before, after)
    ensures HasDir(after, b, slot)
  {
  }

  // ---- Notifications ----

  lemma PromoteGrows(fs: Fs, h: Handle, place: Place)
    requires place.path != []
    ensures var r := PromoteTo(fs, h, place); r.Ok? ==> DirsGrow(fs, r.value.0)
    ensures var r := SealOff(fs, h); r.Ok? ==> DirsGrow(fs, r.value.0)
  {
    hide DirsGrow, Rename, Unlink, Close;
    DirsGrowSelf(fs);
    if h.staging.Some? {
      var closed := Close(fs, h.staging.value.appendFd);
      CloseGrows(fs, h.staging.value.appendFd);
      LinkGrows(closed, h.staging.value.place, place);
      if Rename(closed, h.staging.value.place, place).Ok? {
        DirsGrowOn(fs, closed, Rename(closed, h.staging.value.place, place).value);
      }
      if Unlink(closed, h.staging.value.place).Ok? {
        DirsGrowOn(fs, closed, Unlink(closed, h.staging.value.place).value);
      }
    }
  }

  lemma DirsGrowSelf(fs: Fs)
    ensures DirsGrow(fs, fs)
  {
  }

  lemma DepositGrows(store: Store, place: Place, media: MediaRef, growing: bool)
    requires place.path != []
    ensures var r := Deposit(store, place, media, growing); r.Ok? ==> DirsGrow(store.fs, r.value.fs)
  {
    hide DirsGrow, WriteAtomic, DropName, Link, PromoteTo;
    match media
    case InMemory(bytes) => WriteGrows(store.fs, place, Content.Media(bytes));
    case OnDisk(id) =>
      if id < |store.medias| && growing {
        DropGrows(store.fs, place);
        if store.medias[id].staging.Some? {
          LinkGrows(DropName(store.fs, place), store.medias[id].staging.value.place, place);
          var r := Link(DropName(store.fs, place), store.medias[id].staging.value.place, place);
          if r.Ok? {
            DirsGrowOn(store.fs, DropName(store.fs, place), r.value);
          }
        }
      } else if id < |store.medias| {
        PromoteGrows(store.fs, store.medias[id], place);
      }
  }

  lemma InsertGrows(store: Store, b: string, slot: Slot, blob: Blob)
    requires slot.media != [] && slot.sidecar != []
    ensures var r := TellInsert(store, b, slot, blob); r.Ok? ==> DirsGrow(store.fs, r.value.fs) && HasDir(r.value.fs, b, slot)
  {
    hide DirsGrow, WriteAtomic, MakeDirs, Deposit, GuardCollision;
    var r := TellInsert(store, b, slot, blob);
    if r.Ok? {
      MakeDirsGrows(store.fs, b, Dir(slot.media));
      var made := MakeDirs(store.fs, b, Dir(slot.media)).value;
      DepositGrows(store.(fs := made), Place(b, slot.media), blob.media, blob.upload);
      var deposited := Deposit(store.(fs := made), Place(b, slot.media), blob.media, blob.upload).value;
      WriteGrows(deposited.fs, Place(b, slot.sidecar), ObjectSidecar(blob.meta.name, blob.meta));
      DirsGrowOn(made, deposited.fs, r.value.fs);
      DirsGrowOn(store.fs, made, r.value.fs);
      DirStays(made, r.value.fs, b, slot);
    }
  }

  lemma UpdateGrows(store: Store, b: string, slot: Slot, blob: Blob)
    requires slot.media != [] && slot.sidecar != []
    ensures var r := TellUpdate(store, b, slot, blob); r.Ok? ==> DirsGrow(store.fs, r.value.fs)
  {
    hide DirsGrow, WriteAtomic, SealOff;
    var r := TellUpdate(store, b, slot, blob);
    if r.Ok? {
      var settled := Settle(store, blob).value;
      DirsGrowSelf(store.fs);
      if blob.media.OnDisk? && blob.media.id < |store.medias| {
        PromoteGrows(store.fs, store.medias[blob.media.id], Place(b, slot.media));
      }
      WriteGrows(settled.fs, Place(b, slot.sidecar), ObjectSidecar(blob.meta.name, blob.meta));
      DirsGrowOn(store.fs, settled.fs, r.value.fs);
    }
  }

  lemma DeleteGrows(store: Store, b: string, slot: Slot)
    requires slot.media != [] && slot.sidecar != []
    ensures var r := TellDelete(store, b, slot); r.Ok? ==> DirsGrow(store.fs, r.value.fs)
  {
    hide DirsGrow, DropName;
    var one := DropName(store.fs, Place(b, slot.media));
    DropGrows(store.fs, Place(b, slot.media));
    DropGrows(one, Place(b, slot.sidecar));
    DirsGrowOn(store.fs, one, DropName(one, Place(b, slot.sidecar)));
  }

  lemma BucketGrows(store: Store, bucket: BucketMeta)
    ensures TellBucket(store, bucket).Ok? ==> DirsGrow(store.fs, TellBucket(store, bucket).value.fs)
    ensures TellBucketUpdate(store, bucket).Ok? ==> DirsGrow(store.fs, TellBucketUpdate(store, bucket).value.fs)
  {
  }

  lemma UploadGrows(store: Store, b: string, uploadId: string, id: nat, data: Bytes)
    ensures StageUpload(store, b, uploadId).Ok? ==> DirsGrow(store.fs, StageUpload(store, b, uploadId).value.fs)
    ensures Grow(store, id, data).Ok? ==> DirsGrow(store.fs, Grow(store, id, data).value.fs)
  {
    hide Crc32c;
  }

  // ---- Steps ----

  lemma AbsorbPlaced(index: Index, note: Note, before: Fs, after: Fs, slots: Slots)
    requires Named(slots) && PlacedIn(index, before, slots) && DirsGrow(before, after)
    requires note.ObjectInserted? ==> note.blob.meta.name in slots ==> HasDir(after, note.bucketName, slots[note.blob.meta.name])
    requires note.ObjectUpdated? ==> Generation(index, note.bucketName, KeyOf(note.blob)).Some?
    ensures PlacedIn(Absorb(index, note), after, slots)
  {
    hide Prefixes, DirsGrow;
    var changed := Absorb(index, note);
    forall b, key | b in changed.objects && key in changed.objects[b] && key.name in slots
      ensures HasDir(after, b, slots[key.name])
    {
      if b in index.objects && key in index.objects[b] {
        DirStays(before, after, b, slots[key.name]);
      }
    }
  }

  lemma BucketGonePlaced(index: Index, fs: Fs, slots: Slots, b: string)
    requires Named(slots) && PlacedIn(index, fs, slots)
    ensures PlacedIn(Absorb(index, BucketDeleted(b)), fs.(trees := fs.trees - {b}), slots)
    ensures PlacedIn(EMPTY, fs.(trees := map[]), slots)
  {
  }

  lemma InsertPlaced(w: World, slots: Slots, b: string, name: string, blob: Blob)
    requires Named(slots) && name in slots && blob.meta.name == name && Placed(w, slots)
    ensures var r := Insert(w, slots, b, name, blob); r.Ok? ==> Placed(r.value, slots)
  {
    hide TellInsert, Absorb, PlacedIn, DirsGrow, HasDir;
    var r := Insert(w, slots, b, name, blob);
    if r.Ok? {
      InsertGrows(w.store, b, slots[name], blob);
      AbsorbPlaced(w.index, ObjectInserted(b, blob), w.store.fs, r.value.store.fs, slots);
    }
  }

  lemma UpdatePlaced(w: World, slots: Slots, b: string, name: string, blob: Blob)
    requires Named(slots) && name in slots && blob.meta.name == name && Placed(w, slots)
    requires Generation(w.index, b, KeyOf(blob)).Some?
    ensures var r := Update(w, slots, b, name, blob); r.Ok? ==> Placed(r.value, slots)
  {
    hide TellUpdate, Absorb, PlacedIn, DirsGrow, HasDir;
    var r := Update(w, slots, b, name, blob);
    if r.Ok? {
      UpdateGrows(w.store, b, slots[name], blob);
      AbsorbPlaced(w.index, ObjectUpdated(b, blob), w.store.fs, r.value.store.fs, slots);
    }
  }

  lemma StorePlaced(w: World, after: World, slots: Slots)
    requires Named(slots) && Placed(w, slots) && after.index == w.index && DirsGrow(w.store.fs, after.store.fs)
    ensures Placed(after, slots)
  {
    hide Prefixes, DirsGrow;
    forall b, key | b in w.index.objects && key in w.index.objects[b] && key.name in slots
      ensures HasDir(after.store.fs, b, slots[key.name])
    {
      DirStays(w.store.fs, after.store.fs, b, slots[key.name]);
    }
  }

  lemma AttachPlaced(w: World, slots: Slots, id: nat, attributes: map<string, string>)
    requires Named(slots) && id < |w.uploads| && w.uploads[id].key.name in slots && Placed(w, slots) && Keyed(w.index)
    ensures var r := AttachUpload(w, slots, id, attributes); r.Ok? ==> Placed(r.value, slots)
  {
    hide Insert, PlacedIn, Current, TellUpdate;
    var b, name := w.uploads[id].bucket, w.uploads[id].key.name;
    var blob := EmptyBlob(Key(name, w.generation + 1), id, attributes);
    var current := Current(w.index, b, name);
    var moved := Moved(w, id, Attached);
    InsertPlaced(moved, slots, b, name, blob);
    if current.Some? && current.value.meta.finalized && Insert(moved, slots, b, name, blob).Ok? {
      var inserted := Insert(moved, slots, b, name, blob).value;
      UpdateGrows(inserted.store, b, slots[name], current.value);
      if TellUpdate(inserted.store, b, slots[name], current.value).Ok? {
        StorePlaced(inserted, AttachUpload(w, slots, id, attributes).value, slots);
      }
    }
  }

  /** What the index says of a sound world's objects, by their own keys. */
  lemma SoundKeys(w: World, slots: Slots)
    requires Layout(slots) && Sound(w, slots)
    ensures Keyed(w.index)
    ensures forall b, key :: Generation(w.index, b, key).Some? ==> KeyOf(Generation(w.index, b, key).value) == key
    ensures forall b, n :: Current(w.index, b, n).Some? ==>
                             Current(w.index, b, n).value.meta.name == n && b in w.index.objects
                             && KeyOf(Current(w.index, b, n).value) in w.index.objects[b]
                             && Generation(w.index, b, KeyOf(Current(w.index, b, n).value)) == Current(w.index, b, n)
  {
    hide Layout, TreesSound, Mirror, Handles, BlobsSound, UploadsSound, OwnersSound, LabelsSound;
  }

  lemma BucketStepPlaced(w: World, slots: Slots, step: Step)
    requires Named(slots) && Legal(w, slots, step) && Placed(w, slots)
    requires step.InsertBucket? || step.UpdateBucket? || step.DeleteBucket? || step.Clear?
    ensures var r := Next(w, slots, step); r.Ok? ==> Placed(r.value, slots)
  {
    hide TellBucket, TellBucketUpdate, Absorb, PlacedIn, DirsGrow;
    DirsGrowSelf(w.store.fs);
    match step
    case InsertBucket(bucket) =>
      BucketGrows(w.store, bucket);
      if TellBucket(w.store, bucket).Ok? {
        AbsorbPlaced(w.index, BucketInserted(bucket), w.store.fs, TellBucket(w.store, bucket).value.fs, slots);
      }
    case UpdateBucket(bucket, raised) =>
      BucketGrows(w.store, bucket);
      AbsorbPlaced(w.index, BucketUpdated(bucket), w.store.fs, w.store.fs, slots);
      if TellBucketUpdate(w.store, bucket).Ok? {
        AbsorbPlaced(w.index, BucketUpdated(bucket), w.store.fs, TellBucketUpdate(w.store, bucket).value.fs, slots);
      }
    case DeleteBucket(name) => BucketGonePlaced(w.index, w.store.fs, slots, name);
    case Clear => BucketGonePlaced(w.index, w.store.fs, slots, "");
  }

  lemma UploadStepPlaced(w: World, slots: Slots, step: Step)
    requires Named(slots) && Legal(w, slots, step) && Placed(w, slots) && Keyed(w.index)
    requires step.NewUpload? || step.Append? || step.InsertBytes? || step.FinishUpload? || step.StartAppendable?
    ensures var r := Next(w, slots, step); r.Ok? ==> Placed(r.value, slots)
  {
    hide StageUpload, Grow, Insert, PlacedIn, DirsGrow, AttachUpload, FreshUpload, BytesBlob, WholeBlob;
    match step
    case NewUpload(b, uploadId, name) =>
      UploadGrows(w.store, b, uploadId, 0, []);
      if StageUpload(w.store, b, uploadId).Ok? { StorePlaced(w, StartUpload(w, b, uploadId, name).value, slots); }
    case Append(id, data) =>
      UploadGrows(w.store, "", "", id, data);
      if Grow(w.store, id, data).Ok? { StorePlaced(w, w.(store := Grow(w.store, id, data).value), slots); }
    case InsertBytes(b, name, bytes, attributes) =>
      NamedSo(w, name, bytes, 0, attributes);
      InsertPlaced(w.(generation := w.generation + 1), slots, b, name, BytesBlob(Key(name, w.generation + 1), bytes, attributes));
    case FinishUpload(id, attributes) =>
      var b, name := w.uploads[id].bucket, w.uploads[id].key.name;
      NamedSo(w, name, [], id, attributes);
      InsertPlaced(Moved(w, id, Done), slots, b, name, WholeBlob(w.store.medias[id], Key(name, w.generation + 1), id, attributes));
    case StartAppendable(b, uploadId, name, attributes) =>
      UploadGrows(w.store, b, uploadId, 0, []);
      if StageUpload(w.store, b, uploadId).Ok? {
        var s := StartUpload(w, b, uploadId, name).value;
        StorePlaced(w, s, slots);
        AttachPlaced(s, slots, |w.uploads|, attributes);
      }
  }

  lemma NamedSo(w: World, name: string, bytes: Bytes, id: nat, attributes: map<string, string>)
    ensures BytesBlob(Key(name, w.generation + 1), bytes, attributes).meta.name == name
    ensures id < |w.store.medias| ==> WholeBlob(w.store.medias[id], Key(name, w.generation + 1), id, attributes).meta.name == name
  {
    hide Crc32c;
  }

  lemma ObjectStepPlaced(w: World, slots: Slots, step: Step)
    requires Layout(slots) && Named(slots) && Legal(w, slots, step) && Placed(w, slots) && Sound(w, slots)
    requires step.Checkpoint? || step.FinishAppendable? || step.TakeOver? || step.Patch? || step.Delete?
    ensures var r := Next(w, slots, step); r.Ok? ==> Placed(r.value, slots)
  {
    hide Layout, Sound, Update, TellDelete, PlacedIn, DirsGrow, Absorb, Current, Generation, LiveOrGone, LiveOrNone, Untold, Keyed;
    SoundKeys(w, slots);
    match step
    case Checkpoint(id) =>
      if Written(w, id).Some? {
        UpdatePlaced(w, slots, w.uploads[id].bucket, w.uploads[id].key.name, Checkpointed(Written(w, id).value, w.store.medias[id], id));
      }
    case FinishAppendable(id) =>
      if Written(w, id).Some? {
        UpdatePlaced(w.(uploads := Ended(w.uploads, id)), slots, w.uploads[id].bucket, w.uploads[id].key.name,
                     Finalized(Written(w, id).value, w.store.medias[id], id));
      }
    case TakeOver(b, name, generation) =>
      var blob := Generation(w.index, b, Key(name, generation));
      if blob.Some? { UpdatePlaced(w, slots, b, name, TakenOver(blob.value)); }
    case Patch(b, name, attributes, raised) =>
      var blob := Current(w.index, b, name);
      if blob.Some? {
        UpdatePlaced(w, slots, b, name, Patched(blob.value, attributes));
        UntoldPlaced(w, slots, b, name, blob.value, attributes);
      }
    case Delete(b, name, generation) =>
      if Meant(w.index, b, name, generation).Some? { DeletePlaced(w, slots, b, name, generation); }
  }

  lemma DeletePlaced(w: World, slots: Slots, b: string, name: string, generation: nat)
    requires Named(slots) && name in slots && Placed(w, slots)
    requires Meant(w.index, b, name, generation).Some?
    ensures var r := Discard(w, slots, b, Key(name, Meant(w.index, b, name, generation).value.meta.generation));
            r.Ok? ==> Placed(r.value, slots)
  {
    hide TellDelete, PlacedIn, DirsGrow, Absorb, Current, Generation;
    var key := Key(name, Meant(w.index, b, name, generation).value.meta.generation);
    DeleteGrows(w.store, b, slots[name]);
    if TellDelete(w.store, b, slots[name]).Ok? {
      AbsorbPlaced(w.index, ObjectDeleted(b, key), w.store.fs, TellDelete(w.store, b, slots[name]).value.fs, slots);
    }
  }

  lemma UntoldPlaced(w: World, slots: Slots, b: string, name: string, blob: Blob, attributes: map<string, string>)
    requires Named(slots) && name in slots && Placed(w, slots)
    requires blob.meta.name == name && b in w.index.objects && KeyOf(blob) in w.index.objects[b]
    ensures Placed(Untold(w, b, name, blob, attributes), slots)
  {
    hide Absorb, Prefixes;
    DirsGrowSelf(w.store.fs);
    assert HasDir(w.store.fs, b, slots[KeyOf(blob).name]);
    AbsorbPlaced(w.index, ObjectUpdated(b, Merged(blob, attributes)), w.store.fs, w.store.fs, slots);
  }

  /** Every step keeps the directories of the objects there are. */
  lemma StepPlaced(w: World, slots: Slots, step: Step)
    requires Layout(slots) && Named(slots) && Legal(w, slots, step) && Placed(w, slots) && Sound(w, slots)
    ensures var r := Next(w, slots, step); r.Ok? ==> Placed(r.value, slots)
  {
    hide Layout, Sound, Next, Placed, Legal, Keyed;
    SoundKeys(w, slots);
    match step
    case InsertBucket(_) => BucketStepPlaced(w, slots, step);
    case UpdateBucket(_, _) => BucketStepPlaced(w, slots, step);
    case DeleteBucket(_) => BucketStepPlaced(w, slots, step);
    case Clear => BucketStepPlaced(w, slots, step);
    case Checkpoint(_) => ObjectStepPlaced(w, slots, step);
    case FinishAppendable(_) => ObjectStepPlaced(w, slots, step);
    case TakeOver(_, _, _) => ObjectStepPlaced(w, slots, step);
    case Patch(_, _, _, _) => ObjectStepPlaced(w, slots, step);
    case Delete(_, _, _) => ObjectStepPlaced(w, slots, step);
    case _ => UploadStepPlaced(w, slots, step);
  }
}
