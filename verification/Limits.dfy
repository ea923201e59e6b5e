/** Where the mirror stops being one, and exactly when. */
module Limits {

  import opened Database
  import opened FileStore
  import opened Mirroring
  import opened MirrorSteps
  import opened Pathing
  import opened Placing
  import opened Posix
  import opened Resources
  import opened Shelves
  import opened SoundSteps
  import opened StoreSteps
  import opened WorldRuns
  import opened Worlds
  import opened Wrappers

  // ---- One file per name ----

  lemma DeletedOther(index: Index, b: string, key: Key)
    requires b in index.objects && b in index.live && LiveGeneration(index, b, key.name) != Some(key.generation)
    ensures Current(Absorb(index, ObjectDeleted(b, key)), b, key.name) == Current(index, b, key.name)
    ensures Absorb(index, ObjectDeleted(b, key)).buckets == index.buckets
  {
  }

  /** A delete of a generation that is not the live one takes away the files of the live one. */
  lemma DeleteOfOther(w: World, slots: Slots, b: string, key: Key)
    requires Layout(slots) && Sound(w, slots) && b in w.index.buckets && key.name in slots
    requires LiveGeneration(w.index, b, key.name).Some? && LiveGeneration(w.index, b, key.name) != Some(key.generation)
    ensures Named(slots)
    ensures var r := Discard(w, slots, b, key);
            r.Ok? && !Sound(r.value, slots) && Current(r.value.index, b, key.name).Some?
            && EntryAt(r.value.store.fs, b, slots[key.name]) == None
  {
    hide Sound, Layout, Absorb, TellDelete, Current, EntryAt, MirrorAt, Stepped, Quiet, StagingKept, Tidy, Mirror, Discard,
         IndexSound, SameInode, BlobSound;
    TreeOf(w, slots, b);
    Parts(w, slots);
    LiveKey(w.index, slots, w.generation, b, key.name);
    LiveBlob(w, slots, b, key.name);
    var told := TellsDelete(w.store, slots, b, key.name);
    var after := DiscardIs(w, slots, b, key, told);
    DeletedOther(w.index, b, key);
    if Sound(after, slots) {
      MirrorThere(after, slots, b, key.name);
      NoEntryNoObject(after.store, Current(w.index, b, key.name), Lag(after.behind, b, key.name));
    }
  }

  lemma DiscardIs(w: World, slots: Slots, b: string, key: Key, told: Store) returns (after: World)
    requires Named(slots) && key.name in slots && TellDelete(w.store, b, slots[key.name]) == Ok(told)
    ensures Discard(w, slots, b, key) == Ok(after) && after.index == Absorb(w.index, ObjectDeleted(b, key)) && after.store == told
  {
    hide TellDelete, Absorb;
    after := Discard(w, slots, b, key).value;
  }

  /**
   A delete never makes the store fail, and it keeps the world sound exactly when it is not aimed at a
   generation whose name has another one live.
   */
  lemma DeleteMustBeLive(w: World, slots: Slots, b: string, name: string, generation: nat)
    requires Layout(slots) && Named(slots) && Sound(w, slots) && Placed(w, slots) && name in slots
    ensures var r := Erase(w, slots, b, name, generation);
            r.Ok? && (Sound(r.value, slots) <==> generation == 0 || LiveOrNone(w, b, Key(name, generation)))
  {
    hide Sound, Layout, Named, Placed, Discard, LiveGeneration, Generation, Current, EntryAt;
    if generation == 0 || LiveOrNone(w, b, Key(name, generation)) {
      StepSound(w, slots, Delete(b, name, generation));
    } else {
      SoundKeys(w, slots);
      GenerationHasBucket(w, slots, b, Key(name, generation));
      DeleteOfOther(w, slots, b, Key(name, generation));
    }
  }

  lemma GenerationHasBucket(w: World, slots: Slots, b: string, key: Key)
    requires Layout(slots) && Sound(w, slots) && Generation(w.index, b, key).Some?
    ensures b in w.index.buckets
  {
    hide Layout;
    Shape(w, slots);
  }

  lemma NoEntryNoObject(store: Store, current: Option<Blob>, lag: Option<ObjectMeta>)
    ensures MirrorAt(store, current, None, lag) <==> current == None
  {
  }

  lemma UpdatedOther(index: Index, b: string, blob: Blob)
    requires b in index.objects && b in index.live && LiveGeneration(index, b, blob.meta.name) != Some(blob.meta.generation)
    ensures Current(Absorb(index, ObjectUpdated(b, blob)), b, blob.meta.name) == Current(index, b, blob.meta.name)
    ensures Absorb(index, ObjectUpdated(b, blob)).buckets == index.buckets
  {
  }

  lemma PatchedSound(store: Store, uploads: seq<Upload>, b: string, key: Key, blob: Blob, attributes: map<string, string>)
    requires BlobSound(store, uploads, b, key, blob)
    ensures BlobSound(store, uploads, b, key, Patched(blob, attributes))
  {
    hide Checksums.Crc32c;
  }

  /** An update of a generation that is not the live one gives its metadata to the live one. */
  lemma UpdateOfOther(w: World, slots: Slots, b: string, key: Key, attributes: map<string, string>)
    requires Layout(slots) && Sound(w, slots) && b in w.index.buckets && key.name in slots && Generation(w.index, b, key).Some?
    requires LiveGeneration(w.index, b, key.name).Some? && LiveGeneration(w.index, b, key.name) != Some(key.generation)
    ensures Named(slots)
    ensures var r := Amend(w, slots, b, key, attributes); r.Ok? && !Sound(r.value, slots)
  {
    hide Sound, Layout, Absorb, TellUpdate, Current, EntryAt, Stepped, Evolves, Quiet, StagingKept, Tidy, BytesKept, Seals, SameInode,
         Handles, UploadsSound, TreesSound, OwnersSound, Mirror, BlobSound,
         Update, IndexSound;
    var old_ := Generation(w.index, b, key).value;
    var blob := Patched(old_, attributes);
    SoundKeys(w, slots);
    assert KeyOf(old_) == key;
    TreeOf(w, slots, b);
    Parts(w, slots);
    LiveKey(w.index, slots, w.generation, b, key.name);
    LiveBlob(w, slots, b, key.name);
    assert BlobSound(w.store, w.uploads, b, key, old_);
    PatchedSound(w.store, w.uploads, b, key, old_, attributes);
    NotSealing(w.store, w.uploads, b, key, blob);
    var told := TellsUpdate(w.store, slots, b, key.name, blob);
    UpdateStore(w, slots, b, key.name, blob);
    var after := Update(w, slots, b, key.name, blob).value;
    if Sound(after, slots) {
      UpdatedOther(w.index, b, blob);
      MirrorThere(after, slots, b, key.name);
    }
  }

  /** An update never makes the store fail, and it keeps the world sound exactly when it is aimed at the live generation, or at none. */
  lemma UpdateMustBeLive(w: World, slots: Slots, b: string, key: Key, attributes: map<string, string>)
    requires Layout(slots) && Named(slots) && Sound(w, slots) && Placed(w, slots) && key.name in slots
    ensures var r := Amend(w, slots, b, key, attributes); r.Ok? && (Sound(r.value, slots) <==> LiveOrGone(w, b, key))
  {
    hide Sound, Layout, Named, Placed, Update, LiveGeneration, Generation, Current, ContentAt, FileAt;
    if Generation(w.index, b, key).Some? {
      GenerationHasBucket(w, slots, b, key);
      if LiveGeneration(w.index, b, key.name) == Some(key.generation) {
        LiveIsGeneration(w.index, b, key);
        PatchStaysSound(w, slots, b, key.name, Generation(w.index, b, key).value, attributes);
      } else if LiveGeneration(w.index, b, key.name).Some? {
        UpdateOfOther(w, slots, b, key, attributes);
      } else {
        UpdateResurrects(w, slots, b, key, attributes);
      }
    }
  }

  lemma LiveIsGeneration(index: Index, b: string, key: Key)
    requires LiveGeneration(index, b, key.name) == Some(key.generation)
    ensures Current(index, b, key.name) == Generation(index, b, key)
  {
  }

  lemma PatchStaysSound(w: World, slots: Slots, b: string, name: string, blob: Blob, attributes: map<string, string>)
    requires Layout(slots) && Sound(w, slots) && b in w.index.buckets && name in slots && Current(w.index, b, name) == Some(blob)
    ensures Named(slots)
    ensures var r := Update(w, slots, b, name, Patched(blob, attributes)); r.Ok? && Sound(r.value, slots)
  {
    hide Sound, Layout, Update, Current, MirrorAt, SameInode, EntryAt, Measured, StagedNow, SettledNow, Evolves, BytesKept;
    LiveBlob(w, slots, b, name);
    SoundTouch(w, slots, b, name, Patched(blob, attributes));
  }

  /** An update of a generation whose name has no live object leaves a sidecar without its media. */
  lemma UpdateResurrects(w: World, slots: Slots, b: string, key: Key, attributes: map<string, string>)
    requires Layout(slots) && Named(slots) && Sound(w, slots) && Placed(w, slots) && b in w.index.buckets && key.name in slots
    requires Generation(w.index, b, key).Some? && LiveGeneration(w.index, b, key.name).None?
    ensures var r := Amend(w, slots, b, key, attributes);
            r.Ok? && !Sound(r.value, slots)
            && ContentAt(r.value.store.fs, Place(b, slots[key.name].sidecar)).Some?
            && FileAt(r.value.store.fs, Place(b, slots[key.name].media)) == None
  {
    hide Sound, Layout, Absorb, TellUpdate, EntryAt, Tidy, BlobSound, Handles, UploadsSound, TreesSound, OwnersSound, MirrorAt,
         Current, Update, Mirror, Seals, Placed, IsDir, HasDir;
    var old_ := Generation(w.index, b, key).value;
    var blob := Patched(old_, attributes);
    TreeOf(w, slots, b);
    Parts(w, slots);
    assert BlobSound(w.store, w.uploads, b, key, old_);
    PatchedSound(w.store, w.uploads, b, key, old_, attributes);
    NotSealing(w.store, w.uploads, b, key, blob);
    MirrorThere(w, slots, b, key.name);
    NoLiveNone(w.index, b, key.name);
    NoObjectNoEntry(w.store, EntryAt(w.store.fs, b, slots[key.name]), Lag(w.behind, b, key.name));
    EntryShelved(w.store.fs, slots, b, key.name);
    SlotNotStaging(slots, key.name);
    HasItsDir(w, slots, b, key);
    SlotReady(w.store.fs.trees[b], w.store.fs.inodes, slots, key.name);
    LoneSidecar(w.store, b, slots[key.name], blob);
    var r := Update(w, slots, b, key.name, blob);
    UpdateStore(w, slots, b, key.name, blob);
    if Sound(r.value, slots) {
      TreeOf(r.value, slots, b);
      EntryShelved(r.value.store.fs, slots, b, key.name);
      assert false;
    }
  }

  /** The directory of a name can take its files, if it is there. */
  lemma SlotReady(tree: Tree, inodes: seq<Content>, slots: Slots, name: string)
    requires Layout(slots) && Tidy(tree, inodes, slots) && name in slots
    requires slots[name].media != [] && slots[name].sidecar != [] && IsDir(tree, Dir(slots[name].media))
    ensures Ready(tree, slots[name])
  {
    hide IsDir;
    assert ProperSlot(slots[name]);
    NotDirs(tree, slots, name);
    assert Base(slots[name].media) in slots[name].media;
  }

  lemma NoObjectNoEntry(store: Store, entry: Option<Entry>, lag: Option<ObjectMeta>)
    ensures MirrorAt(store, None, entry, lag) <==> entry == None
  {
  }

  lemma UpdateStore(w: World, slots: Slots, b: string, name: string, blob: Blob)
    requires Named(slots) && name in slots && TellUpdate(w.store, b, slots[name], blob).Ok?
    ensures var r := Update(w, slots, b, name, blob);
            r.Ok? && TellUpdate(w.store, b, slots[name], blob) == Ok(r.value.store)
            && r.value.index == Absorb(w.index, ObjectUpdated(b, blob)) && r.value.behind == w.behind - {(b, name)}
            && r.value.index.buckets == w.index.buckets
  {
    hide TellUpdate;
  }

  lemma LoneSidecar(store: Store, b: string, slot: Slot, blob: Blob)
    requires slot.media != [] && slot.sidecar != [] && slot.media != slot.sidecar && !Seals(store, blob)
    requires b in store.fs.trees && slot.media !in store.fs.trees[b].files && Ready(store.fs.trees[b], slot)
    ensures var r := TellUpdate(store, b, slot, blob);
            r.Ok? && b in r.value.fs.trees && slot.media !in r.value.fs.trees[b].files && slot.sidecar in r.value.fs.trees[b].files
            && ContentAt(r.value.fs, Place(b, slot.sidecar)).Some?
  {
  }

  // ---- Media that is not where it should be ----

  lemma PromotionNeedsName(store: Store, b: string, slot: Slot, blob: Blob)
    requires slot.media != [] && slot.sidecar != [] && blob.media.OnDisk? && !blob.upload
    requires blob.media.id < |store.medias| && store.medias[blob.media.id].staging.Some?
    ensures TellInsert(store, b, slot, blob).Ok? ==> FileAt(store.fs, store.medias[blob.media.id].staging.value.place).Some?
  {
    var place := store.medias[blob.media.id].staging.value.place;
    var made := MakeDirs(store.fs, b, Dir(slot.media));
    if made.Ok? {
      assert FileAt(made.value, place) == FileAt(store.fs, place);
      assert FileAt(Close(made.value, store.medias[blob.media.id].staging.value.appendFd), place) == FileAt(made.value, place);
    }
  }

  /**
   The insert that finishes an upload succeeds exactly when its staging name is still there; it goes
   with the bucket it was in, even if another of that name comes.
   */
  lemma FinishNeedsStaging(w: World, slots: Slots, id: nat, attributes: map<string, string>)
    requires Layout(slots) && Named(slots) && id < |w.uploads| && id < |w.store.medias| && w.uploads[id].key.name in slots
    requires w.uploads[id].phase == Staged && w.uploads[id].bucket in w.index.objects && StagingPlace(w, id).Some?
    requires Sound(w, slots)
    ensures FinishWhole(w, slots, id, attributes).Ok? <==> FileAt(w.store.fs, StagingPlace(w, id).value).Some?
  {
    hide Sound, Layout, Named, Evolves, TellInsert, Absorb, FileAt;
    var b, name := w.uploads[id].bucket, w.uploads[id].key.name;
    SlotsNamed(slots);
    var blob := WholeBlob(w.store.medias[id], Key(name, w.generation + 1), id, attributes);
    PromotionNeedsName(w.store, b, slots[name], blob);
    if FileAt(w.store.fs, StagingPlace(w, id).value).Some? {
      SoundFinish(w, slots, id, attributes);
    }
  }

  /** Inserting media that is already settled, as a restore does, puts no bytes under the name. */
  lemma SettledInsertMovesNothing(store: Store, b: string, slot: Slot, blob: Blob)
    requires slot.media != [] && slot.sidecar != [] && slot.media != slot.sidecar
    requires blob.media.OnDisk? && blob.media.id < |store.medias| && store.medias[blob.media.id].staging.None? && !blob.upload
    ensures var r := TellInsert(store, b, slot, blob);
            r.Ok? ==> FileAt(r.value.fs, Place(b, slot.media)) == FileAt(store.fs, Place(b, slot.media))
                      && FileAt(r.value.fs, Place(b, slot.sidecar)).Some?
  {
  }
}
