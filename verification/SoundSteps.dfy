/** Each kind of step, from a sound world: the store does not fail, and the world stays sound. */
module SoundSteps {

  import opened Bytes
  import opened Checksums
  import opened Database
  import opened FileMedia
  import opened FileStore
  import opened Mirroring
  import opened MirrorSteps
  import opened Pathing
  import opened Posix
  import opened Resources
  import opened Shelves
  import opened StoreSteps
  import opened Worlds
  import opened Wrappers

  lemma SlotsNamed(slots: Slots)
    requires Layout(slots)
    ensures Named(slots)
  {
    forall n | n in slots
      ensures slots[n].media != [] && slots[n].sidecar != []
    {
      assert ProperSlot(slots[n]);
    }
  }

  /** The parts of soundness, by name. */
  lemma Parts(w: World, slots: Slots)
    requires Layout(slots) && Sound(w, slots)
    ensures IndexSound(w.index, slots, w.generation) && TreesSound(w.store.fs, w.labels, slots) && LabelsSound(w)
    ensures Handles(w.store) && UploadsSound(w.store, w.uploads) && BlobsSound(w.store, w.uploads, w.index)
    ensures OwnersSound(w.uploads, w.index, w.generation) && Mirror(w, slots)
  {
  }

  /** A new generation belongs to no attached upload yet. */
  lemma OwnersInsert(w: World, after: World, slots: Slots, b: string, blob: Blob)
    requires OwnersSound(w.uploads, w.index, w.generation) && Inserted(w, after, slots, b, blob)
    requires blob.meta.generation == w.generation + 1 && |w.uploads| <= |after.uploads|
    requires forall id :: 0 <= id < |after.uploads| && after.uploads[id].phase == Attached ==>
                            || (id < |w.uploads| && after.uploads[id] == w.uploads[id])
                            || (after.uploads[id].bucket == b && after.uploads[id].key == KeyOf(blob) && blob.media == OnDisk(id) && blob.upload)
    ensures OwnersSound(after.uploads, after.index, after.generation)
  {
    hide IndexSound, OneName, OneBehind, Current;
    forall id | 0 <= id < |w.uploads| && w.uploads[id].phase == Attached
      ensures w.uploads[id].key != KeyOf(blob)
    {
      assert w.uploads[id].key.generation <= w.generation;
    }
    OwnersStep(w.uploads, after.uploads, w.index, after.index, w.generation, after.generation, b, KeyOf(blob));
  }

  lemma OwnersUpdate(w: World, after: World, slots: Slots, b: string, blob: Blob)
    requires OwnersSound(w.uploads, w.index, w.generation) && Updated(w, after, slots, b, blob) && |after.uploads| == |w.uploads|
    requires b in w.index.objects && KeyOf(blob) in w.index.objects[b]
    requires var current := w.index.objects[b][KeyOf(blob)];
             && blob.media == current.media
             && forall id :: 0 <= id < |w.uploads| && after.uploads[id].phase == Attached ==>
                               after.uploads[id] == w.uploads[id] && (current.media == OnDisk(id) ==> blob.upload == current.upload)
    ensures OwnersSound(after.uploads, after.index, after.generation)
  {
    hide IndexSound, OneName, OneBehind, Current;
    OwnersStep(w.uploads, after.uploads, w.index, after.index, w.generation, after.generation, b, KeyOf(blob));
  }

  /** The same buckets everywhere, and one media per upload. */
  lemma Shape(w: World, slots: Slots)
    requires Layout(slots) && Sound(w, slots)
    ensures w.index.buckets.Keys == w.index.objects.Keys == w.index.live.Keys == w.store.fs.trees.Keys == w.labels.Keys
    ensures |w.uploads| == |w.store.medias|
  {
  }

  lemma TreeOf(w: World, slots: Slots, b: string)
    requires Layout(slots) && Sound(w, slots) && b in w.index.buckets
    ensures b in w.store.fs.trees && Tidy(w.store.fs.trees[b], w.store.fs.inodes, slots)
    ensures b in w.index.objects && b in w.index.live
  {
  }

  /** New inodes belong to no media. */
  lemma MediaInodeOld(store: Store, k: nat)
    requires Handles(store) && k < |store.medias|
    ensures MediaInode(store, k).Some? && MediaInode(store, k).value < |store.fs.inodes|
    ensures store.fs.inodes[MediaInode(store, k).value].Media?
  {
    assert HandleSound(store.fs, store.medias[k]);
  }

  lemma InodeKept(before: Store, after: Store, k: nat)
    requires Handles(before) && BytesKept(before, after) && k < |before.medias|
    ensures MediaInode(after, k) == MediaInode(before, k) && MediaInode(after, k).Some?
    ensures MediaInode(after, k).value < |after.fs.inodes|
  {
    MediaInodeOld(before, k);
  }

  // ---- Bytes from memory ----

  lemma BytesMirror(before: Store, after: Store, blob: Blob)
    requires Handles(before) && BytesKept(before, after) && blob.media.InMemory?
    requires after.fs.inodes == before.fs.inodes + [Content.Media(blob.media.bytes)] + [ObjectSidecar(blob.meta.name, blob.meta)]
    ensures SameInode(after, blob.media, |before.fs.inodes|)
  {
    var i := |before.fs.inodes|;
    assert after.fs.inodes[i] == Content.Media(blob.media.bytes);
    forall k | 0 <= k < |after.medias|
      ensures MediaInode(after, k) != Some(i)
    {
      MediaInodeOld(before, k);
    }
  }

  /** What an insert of this object made of the index. */
  ghost predicate Inserted(w: World, after: World, slots: Slots, b: string, blob: Blob) {
    match w
    case World(index, _, _, generation, behind, labels) =>
      && after.generation == generation + 1 && IndexSound(after.index, slots, after.generation)
      && OneName(index, after.index, b, blob.meta.name) && Current(after.index, b, blob.meta.name) == Some(blob)
      && OneObject(index, after.index, b, KeyOf(blob))
      && b in after.index.objects && KeyOf(blob) in after.index.objects[b] && after.index.objects[b][KeyOf(blob)] == blob
      && OneBehind(behind, after.behind, b, blob.meta.name) && after.labels == labels
  }

  /** An insert that the store has taken; `moved` is the world with its uploads and number moved on. */
  lemma Inserts(w: World, moved: World, slots: Slots, b: string, name: string, blob: Blob, told: Store) returns (after: World)
    requires Layout(slots) && Named(slots) && Sound(w, slots) && b in w.index.buckets
    requires name in slots && blob.meta.name == name && blob.meta.generation == w.generation + 1
    requires moved == w.(uploads := moved.uploads, generation := w.generation + 1)
    requires TellInsert(w.store, b, slots[name], blob) == Ok(told)
    ensures Insert(moved, slots, b, name, blob) == Ok(after)
    ensures Inserted(w, after, slots, b, blob)
    ensures after.store == told && after.uploads == moved.uploads && (b, name) !in after.behind
  {
    hide *;
    TreeOf(w, slots, b);
    Parts(w, slots);
    IndexInsert(w.index, slots, w.generation, b, blob);
    InsertOneObject(w.index, b, blob);
    after := InsertIs(w, moved, slots, b, name, blob, told);
    InsertedFrom(w, after, slots, b, name, blob);
  }

  lemma InsertIs(w: World, moved: World, slots: Slots, b: string, name: string, blob: Blob, told: Store) returns (after: World)
    requires Named(slots) && name in slots && TellInsert(w.store, b, slots[name], blob) == Ok(told)
    requires moved == w.(uploads := moved.uploads, generation := w.generation + 1)
    ensures Insert(moved, slots, b, name, blob) == Ok(after)
    ensures after == World(Absorb(w.index, ObjectInserted(b, blob)), told, moved.uploads, w.generation + 1, w.behind - {(b, name)}, w.labels)
  {
    hide Absorb, TellInsert;
    after := World(Absorb(w.index, ObjectInserted(b, blob)), told, moved.uploads, w.generation + 1, w.behind - {(b, name)}, w.labels);
  }

  lemma InsertedFrom(w: World, after: World, slots: Slots, b: string, name: string, blob: Blob)
    requires blob.meta.name == name && blob.meta.generation == w.generation + 1 && after.index == Absorb(w.index, ObjectInserted(b, blob))
    requires after.generation == w.generation + 1 && after.behind == w.behind - {(b, name)} && after.labels == w.labels
    requires IndexSound(after.index, slots, after.generation)
    requires OneName(w.index, after.index, b, name) && Current(after.index, b, name) == Some(blob)
    requires OneObject(w.index, after.index, b, KeyOf(blob))
    requires b in after.index.objects && KeyOf(blob) in after.index.objects[b] && after.index.objects[b][KeyOf(blob)] == blob
    ensures Inserted(w, after, slots, b, blob) && (b, name) !in after.behind
  {
    hide Absorb, IndexSound, OneName, OneObject, Current;
  }

  /** The common end of the inserts: the object is in the index, its files are in the tree. */
  lemma InsertedSound(w: World, after: World, slots: Slots, b: string, blob: Blob, inode: Inode)
    requires Layout(slots) && Sound(w, slots) && b in w.index.buckets && blob.meta.name in slots
    requires Inserted(w, after, slots, b, blob) && (b, blob.meta.name) !in after.behind
    requires Stepped(w.store.fs, after.store.fs, slots, b, blob.meta.name)
    requires Handles(after.store) && BytesKept(w.store, after.store) && UploadsSound(after.store, after.uploads)
    requires AllCarried(w.store, after.store, w.uploads, after.uploads, w.index, b, KeyOf(blob))
    requires OwnersSound(after.uploads, after.index, after.generation)
    requires BlobSound(after.store, after.uploads, b, KeyOf(blob), blob)
    requires EntryAt(after.store.fs, b, slots[blob.meta.name]) == Some(Entry(blob.meta, inode)) && SameInode(after.store, blob.media, inode)
    ensures Sound(after, slots)
  {
    hide Layout, Sound, Stepped, Handles, BytesKept, UploadsSound, AllCarried, OwnersSound, BlobSound, EntryAt, SameInode, IndexSound,
         OneName, OneObject, OneBehind, Current;
    ObjectStep(w, after, slots, b, KeyOf(blob));
  }

  /** What the store makes of new bytes. */
  ghost predicate ToldBytes(before: Store, after: Store, slots: Slots, b: string, blob: Blob)
    requires Layout(slots)
  {
    match before
    case Store(fs, _) =>
      && blob.media.InMemory? && blob.meta.name in slots
      && Stepped(fs, after.fs, slots, b, blob.meta.name) && Quiet(before, after) && StagingKept(fs, after.fs, None)
      && EntryAt(after.fs, b, slots[blob.meta.name]) == Some(Entry(blob.meta, |fs.inodes|))
      && after.fs.inodes == fs.inodes + [Content.Media(blob.media.bytes)] + [ObjectSidecar(blob.meta.name, blob.meta)]
  }

  lemma PutBytes(w: World, after: World, slots: Slots, b: string, blob: Blob)
    requires Layout(slots) && Sound(w, slots) && b in w.index.buckets && blob.meta.name in slots
    requires Inserted(w, after, slots, b, blob) && after.uploads == w.uploads && ToldBytes(w.store, after.store, slots, b, blob)
    requires blob.meta.generation == w.generation + 1
    requires (b, blob.meta.name) !in after.behind && BlobSound(after.store, after.uploads, b, KeyOf(blob), blob)
    ensures Sound(after, slots)
  {
    hide Layout, Sound, Stepped, TreesSound, Mirror, IndexSound, Inserted, BlobSound, OwnersSound, AllCarried, BytesKept, Handles,
         EntryAt, Quiet, StagingKept, UploadsSound, SameInode;
    Parts(w, slots);
    QuietKeeps(w.store, after.store);
    QuietUploads(w.store, after.store, w.uploads);
    QuietAll(w.store, after.store, w.uploads, w.uploads, w.index, b, KeyOf(blob));
    OwnersInsert(w, after, slots, b, blob);
    BytesMirror(w.store, after.store, blob);
    InsertedSound(w, after, slots, b, blob, |w.store.fs.inodes|);
  }

  lemma TellsBytes(store: Store, slots: Slots, b: string, name: string, blob: Blob) returns (told: Store)
    requires Layout(slots) && name in slots && blob.meta.name == name && blob.media.InMemory?
    requires b in store.fs.trees && Tidy(store.fs.trees[b], store.fs.inodes, slots)
    ensures Named(slots) && TellInsert(store, b, slots[name], blob) == Ok(told) && ToldBytes(store, told, slots, b, blob)
  {
    SlotsNamed(slots);
    InsertsBytes(store, slots, b, name, blob);
    told := TellInsert(store, b, slots[name], blob).value;
    assert Quiet(store, told);
  }

  lemma SoundBytes(w: World, slots: Slots, b: string, name: string, blob: Blob)
    requires Layout(slots) && Sound(w, slots) && name in slots && b in w.index.buckets
    requires blob.meta.name == name && blob.meta.generation == w.generation + 1 && blob.media.InMemory?
    requires blob.meta.finalized && !blob.upload && blob.uploadGen == 0 && Measured(blob.meta, blob.media.bytes)
    ensures Named(slots)
    ensures var r := Insert(w.(generation := w.generation + 1), slots, b, name, blob);
            r.Ok? && Sound(r.value, slots) && Evolves(w.store, r.value.store)
  {
    hide Sound, Layout, Tidy, ToldBytes, Inserted, TellInsert, Insert;
    TreeOf(w, slots, b);
    var told := TellsBytes(w.store, slots, b, name, blob);
    var after := Inserts(w, w.(generation := w.generation + 1), slots, b, name, blob, told);
    PutBytes(w, after, slots, b, blob);
    Parts(w, slots);
    BytesEvolve(w.store, told, slots, b, blob);
  }

  lemma BytesEvolve(before: Store, after: Store, slots: Slots, b: string, blob: Blob)
    requires Layout(slots) && ToldBytes(before, after, slots, b, blob) && Handles(before)
    ensures Evolves(before, after)
  {
    hide Layout, Handles, Stepped, Quiet;
    QuietEvolves(before, after);
  }

  lemma InsertOneObject(index: Index, b: string, blob: Blob)
    requires b in index.objects && b in index.live
    ensures var after := Absorb(index, ObjectInserted(b, blob));
            && OneObject(index, after, b, KeyOf(blob))
            && b in after.objects && KeyOf(blob) in after.objects[b] && after.objects[b][KeyOf(blob)] == blob
  {
  }

  lemma UpdateOneObject(index: Index, b: string, blob: Blob)
    requires b in index.objects && b in index.live
    ensures var after := Absorb(index, ObjectUpdated(b, blob));
            && OneObject(index, after, b, KeyOf(blob))
            && b in after.objects && KeyOf(blob) in after.objects[b] && after.objects[b][KeyOf(blob)] == blob
  {
  }

  // ---- Staged media under a name ----

  /** The inode of an upload that is still only staged is under no object's name. */
  lemma StagedIsUnnamed(w: World, slots: Slots, b: string, m: string, id: nat)
    requires Layout(slots) && Sound(w, slots) && b in w.index.buckets && m in slots
    requires id < |w.uploads| && w.uploads[id].phase == Staged
    requires EntryAt(w.store.fs, b, slots[m]).Some?
    ensures Some(EntryAt(w.store.fs, b, slots[m]).value.inode) != MediaInode(w.store, id)
  {
    hide Layout, TreesSound, Tidy, EntryAt, Measured;
    Parts(w, slots);
    LiveKey(w.index, slots, w.generation, b, m);
    var entry := EntryAt(w.store.fs, b, slots[m]).value;
    var blob := Current(w.index, b, m).value;
    assert BlobSound(w.store, w.uploads, b, KeyOf(blob), blob);
    MediaInodeOld(w.store, id);
    if blob.media.OnDisk? {
      var j := blob.media.id;
      assert j != id;
      assert Apart(w.store.fs, w.store.medias[if j < id then j else id], w.store.medias[if j < id then id else j]);
    }
  }

  lemma StagedIsFree(w: World, slots: Slots, b: string, n: string, id: nat, i: Inode)
    requires Layout(slots) && Sound(w, slots) && b in w.index.buckets && n in slots
    requires id < |w.uploads| && w.uploads[id].phase == Staged && MediaInode(w.store, id) == Some(i)
    ensures b in w.store.fs.trees && FreeFor(w.store.fs.trees[b], slots, n, i)
    ensures FileAt(w.store.fs, Place(b, slots[n].media)) != Some(i)
  {
    hide Sound, Layout, Tidy, EntryAt;
    TreeOf(w, slots, b);
    forall m | m in slots
      ensures slots[m].media in w.store.fs.trees[b].files ==> w.store.fs.trees[b].files[slots[m].media] != i
    {
      EntryShelved(w.store.fs, slots, b, m);
      if slots[m].media in w.store.fs.trees[b].files {
        StagedIsUnnamed(w, slots, b, m, id);
      }
    }
  }

  lemma StagedIsHere(w: World, slots: Slots, id: nat)
    requires Layout(slots) && Sound(w, slots) && id < |w.uploads| && w.uploads[id].phase != Done
    requires StagingPlace(w, id).Some? && FileAt(w.store.fs, StagingPlace(w, id).value).Some?
    ensures MediaInode(w.store, id).Some?
    ensures StagedHere(w.store, w.uploads[id].bucket, id, MediaInode(w.store, id).value)
  {
    hide Layout, TreesSound, Mirror, BlobsSound, IndexSound;
    MediaInodeOld(w.store, id);
    assert HandleSound(w.store.fs, w.store.medias[id]);
  }

  // ---- A finished upload ----

  ghost predicate ToldPromoted(before: Store, after: Store, slots: Slots, b: string, blob: Blob, id: nat)
    requires Layout(slots)
  {
    match before
    case Store(fs, _) =>
      && blob.media == OnDisk(id) && !blob.upload && blob.meta.name in slots
      && Stepped(fs, after.fs, slots, b, blob.meta.name) && Settles(before, after, id)
      && MediaInode(before, id).Some?
      && EntryAt(after.fs, b, slots[blob.meta.name]) == Some(Entry(blob.meta, MediaInode(before, id).value))
  }

  lemma TellsPromoted(store: Store, slots: Slots, b: string, name: string, blob: Blob, id: nat) returns (told: Store)
    requires Layout(slots) && name in slots && blob.meta.name == name && blob.media == OnDisk(id) && !blob.upload
    requires b in store.fs.trees && Tidy(store.fs.trees[b], store.fs.inodes, slots)
    requires MediaInode(store, id).Some? && StagedHere(store, b, id, MediaInode(store, id).value)
    requires FreeFor(store.fs.trees[b], slots, name, MediaInode(store, id).value)
    requires FileAt(store.fs, Place(b, slots[name].media)) != MediaInode(store, id)
    ensures Named(slots) && TellInsert(store, b, slots[name], blob) == Ok(told) && ToldPromoted(store, told, slots, b, blob, id)
  {
    hide Layout, Tidy, Stepped, StagingKept, EntryAt, TellInsert, FreeFor;
    SlotsNamed(slots);
    InsertsPromoted(store, slots, b, name, blob, MediaInode(store, id).value);
    told := TellInsert(store, b, slots[name], blob).value;
    PrefixOfMore(store.fs.inodes, ObjectSidecar(name, blob.meta));
    assert Settles(store, told, id);
  }

  lemma PrefixOfMore<T>(s: seq<T>, x: T)
    ensures s <= s + [x]
  {
  }

  /** A checkpoint or a finished upload records what the media rolls along. */
  lemma HandleMeasures(store: Store, id: nat)
    requires Handles(store) && id < |store.medias|
    ensures Rolling(store.medias[id], MediaBytes(store, id))
  {
    assert HandleSound(store.fs, store.medias[id]);
  }

  lemma WholeSound(before: Store, after: Store, uploads: seq<Upload>, b: string, key: Key, id: nat, attributes: map<string, string>)
    requires Handles(before) && BytesKept(before, after) && Settles(before, after, id)
    requires id < |uploads| && uploads[id] == Upload(b, key, Done)
    ensures BlobSound(after, uploads, b, key, WholeBlob(before.medias[id], key, id, attributes))
  {
    HandleMeasures(before, id);
  }

  lemma PutPromoted(w: World, after: World, slots: Slots, b: string, blob: Blob, id: nat)
    requires Layout(slots) && Sound(w, slots) && b in w.index.buckets && blob.meta.name in slots
    requires id < |w.uploads| && w.uploads[id].phase == Staged && w.uploads[id].bucket == b
    requires after.uploads == w.uploads[id := Upload(b, KeyOf(blob), Done)]
    requires Inserted(w, after, slots, b, blob) && ToldPromoted(w.store, after.store, slots, b, blob, id)
    requires blob.meta.generation == w.generation + 1
    requires (b, blob.meta.name) !in after.behind
    requires BlobSound(after.store, after.uploads, b, KeyOf(blob), blob)
    ensures Sound(after, slots)
  {
    hide Layout, Sound, Stepped, TreesSound, Mirror, IndexSound, Inserted, BlobSound, OwnersSound, AllCarried, BytesKept, Handles,
         EntryAt, Settles, UploadsSound;
    Parts(w, slots);
    SettlesKeeps(w.store, after.store, id);
    SettledMoved(w.store, after.store, id, w.uploads, after.uploads);
    SettlesAll(w.store, after.store, id, w.uploads, after.uploads, w.index, b, KeyOf(blob));
    OwnersInsert(w, after, slots, b, blob);
    InodeKept(w.store, after.store, id);
    InsertedSound(w, after, slots, b, blob, MediaInode(w.store, id).value);
  }

  lemma SettledMoved(before: Store, after: Store, id: nat, uploads: seq<Upload>, moved: seq<Upload>)
    requires Settles(before, after, id) && UploadsSound(before, uploads) && id < |uploads|
    requires |moved| == |uploads| && moved == uploads[id := moved[id]] && moved[id].phase == Done
    ensures UploadsSound(after, moved) && id < |before.medias|
  {
    hide StagingKept;
  }

  lemma SoundFinish(w: World, slots: Slots, id: nat, attributes: map<string, string>)
    requires Layout(slots) && Named(slots) && Sound(w, slots) && Legal(w, slots, FinishUpload(id, attributes))
    ensures var r := FinishWhole(w, slots, id, attributes);
            r.Ok? && Sound(r.value, slots) && Evolves(w.store, r.value.store) && BytesKept(w.store, r.value.store)
  {
    hide Sound, Layout, Tidy, Settles, Inserted, ToldPromoted, TellInsert, Insert, FreeFor, BlobSound, StagedHere, Handles, Evolves, TreesSound,
         BlobsSound, IndexSound, OwnersSound, Mirror;
    var b, name := w.uploads[id].bucket, w.uploads[id].key.name;
    Shape(w, slots);
    if w.uploads[id].phase == Staged && b in w.index.objects {
      TreeOf(w, slots, b);
      StagedIsHere(w, slots, id);
      StagedIsFree(w, slots, b, name, id, MediaInode(w.store, id).value);
      var key := Key(name, w.generation + 1);
      var blob := WholeBlob(w.store.medias[id], key, id, attributes);
      var told := TellsPromoted(w.store, slots, b, name, blob, id);
      var moved := Moved(w, id, Done);
      var after := Inserts(w, moved, slots, b, name, blob, told);
      FinishSound(w, after, slots, b, id, attributes, blob);
      Parts(w, slots);
      PromotedEvolve(w.store, told, slots, b, blob, id);
      SettlesKeeps(w.store, told, id);
    } else {
      EvolvesNot(w.store);
      QuietSame(w.store);
      Parts(w, slots);
      QuietKeeps(w.store, w.store);
    }
  }

  lemma EvolvesNot(store: Store)
    ensures Evolves(store, store)
  {
  }

  lemma PromotedEvolve(before: Store, after: Store, slots: Slots, b: string, blob: Blob, id: nat)
    requires Layout(slots) && ToldPromoted(before, after, slots, b, blob, id) && Handles(before)
    ensures Evolves(before, after) && Settles(before, after, id)
  {
    hide Layout, Handles, Stepped, Settles;
    SettlesEvolves(before, after, id);
  }

  lemma FinishSound(w: World, after: World, slots: Slots, b: string, id: nat, attributes: map<string, string>, blob: Blob)
    requires Layout(slots) && Sound(w, slots) && b in w.index.buckets && blob.meta.name in slots
    requires id < |w.uploads| && id < |w.store.medias| && w.uploads[id].phase == Staged && w.uploads[id].bucket == b
    requires blob == WholeBlob(w.store.medias[id], KeyOf(blob), id, attributes)
    requires after.uploads == w.uploads[id := Upload(b, KeyOf(blob), Done)]
    requires Inserted(w, after, slots, b, blob) && ToldPromoted(w.store, after.store, slots, b, blob, id)
    requires blob.meta.generation == w.generation + 1
    requires (b, blob.meta.name) !in after.behind
    ensures Sound(after, slots)
  {
    hide Layout, Sound, Stepped, TreesSound, Mirror, IndexSound, BlobSound, Inserted;
    Parts(w, slots);
    SettlesKeeps(w.store, after.store, id);
    WholeSound(w.store, after.store, after.uploads, b, KeyOf(blob), id, attributes);
    PutPromoted(w, after, slots, b, blob, id);
  }

  // ---- Updates ----

  /** What the store makes of an update: a new sidecar over the same bytes. */
  ghost predicate ToldUpdate(before: Store, after: Store, slots: Slots, b: string, blob: Blob)
    requires Layout(slots)
  {
    match before
    case Store(fs, _) =>
      && blob.meta.name in slots && EntryAt(fs, b, slots[blob.meta.name]).Some?
      && Stepped(fs, after.fs, slots, b, blob.meta.name)
      && EntryAt(after.fs, b, slots[blob.meta.name]) ==
         Some(Entry(blob.meta, EntryAt(fs, b, slots[blob.meta.name]).value.inode))
  }

  lemma TellsUpdate(store: Store, slots: Slots, b: string, name: string, blob: Blob) returns (told: Store)
    requires Layout(slots) && name in slots && blob.meta.name == name && !Seals(store, blob)
    requires b in store.fs.trees && Tidy(store.fs.trees[b], store.fs.inodes, slots)
    requires EntryAt(store.fs, b, slots[name]).Some?
    ensures Named(slots) && TellUpdate(store, b, slots[name], blob) == Ok(told) && ToldUpdate(store, told, slots, b, blob)
    ensures Quiet(store, told) && StagingKept(store.fs, told.fs, None)
  {
    hide Layout, Tidy, Stepped, EntryAt, TellUpdate, Seals;
    SlotsNamed(slots);
    Updates(store, slots, b, name, blob);
    told := TellUpdate(store, b, slots[name], blob).value;
    PrefixOfMore(store.fs.inodes, ObjectSidecar(name, blob.meta));
  }

  lemma TellsSealing(store: Store, slots: Slots, b: string, name: string, blob: Blob, id: nat) returns (told: Store)
    requires Layout(slots) && name in slots && blob.meta.name == name && blob.media == OnDisk(id) && !blob.upload
    requires b in store.fs.trees && Tidy(store.fs.trees[b], store.fs.inodes, slots)
    requires EntryAt(store.fs, b, slots[name]).Some?
    requires StagedHere(store, b, id, EntryAt(store.fs, b, slots[name]).value.inode)
    ensures Named(slots) && TellUpdate(store, b, slots[name], blob) == Ok(told) && ToldUpdate(store, told, slots, b, blob)
    ensures Settles(store, told, id)
  {
    hide Layout, Tidy, Stepped, StagingKept, EntryAt, TellUpdate;
    SlotsNamed(slots);
    UpdatesSealing(store, slots, b, name, blob);
    told := TellUpdate(store, b, slots[name], blob).value;
    PrefixOfMore(store.fs.inodes, ObjectSidecar(name, blob.meta));
  }

  /** What an update of the live object made of the index. */
  ghost predicate Updated(w: World, after: World, slots: Slots, b: string, blob: Blob) {
    match w
    case World(index, _, _, generation, behind, labels) =>
      && after.generation == generation && IndexSound(after.index, slots, generation)
      && OneName(index, after.index, b, blob.meta.name) && Current(after.index, b, blob.meta.name) == Some(blob)
      && OneObject(index, after.index, b, KeyOf(blob))
      && b in after.index.objects && KeyOf(blob) in after.index.objects[b] && after.index.objects[b][KeyOf(blob)] == blob
      && OneBehind(behind, after.behind, b, blob.meta.name) && after.labels == labels
  }

  lemma UpdateIs(w: World, moved: World, slots: Slots, b: string, name: string, blob: Blob, told: Store) returns (after: World)
    requires Named(slots) && name in slots && TellUpdate(w.store, b, slots[name], blob) == Ok(told)
    requires moved == w.(uploads := moved.uploads)
    ensures Update(moved, slots, b, name, blob) == Ok(after)
    ensures after == World(Absorb(w.index, ObjectUpdated(b, blob)), told, moved.uploads, w.generation, w.behind - {(b, name)}, w.labels)
  {
    hide Absorb, TellUpdate;
    after := World(Absorb(w.index, ObjectUpdated(b, blob)), told, moved.uploads, w.generation, w.behind - {(b, name)}, w.labels);
  }

  lemma UpdatedFrom(w: World, after: World, slots: Slots, b: string, name: string, blob: Blob)
    requires blob.meta.name == name && after.generation == w.generation && after.behind == w.behind - {(b, name)}
    requires after.labels == w.labels
    requires IndexSound(after.index, slots, after.generation)
    requires OneName(w.index, after.index, b, name) && Current(after.index, b, name) == Some(blob)
    requires OneObject(w.index, after.index, b, KeyOf(blob))
    requires b in after.index.objects && KeyOf(blob) in after.index.objects[b] && after.index.objects[b][KeyOf(blob)] == blob
    ensures Updated(w, after, slots, b, blob) && (b, name) !in after.behind
  {
    hide IndexSound, OneName, OneObject, Current;
  }

  /** An update that the store has taken; `moved` is the world with its uploads moved on. */
  lemma UpdatesWorld(w: World, moved: World, slots: Slots, b: string, name: string, blob: Blob, told: Store) returns (after: World)
    requires Layout(slots) && Named(slots) && Sound(w, slots) && b in w.index.buckets && name in slots && blob.meta.name == name
    requires Current(w.index, b, name).Some? && KeyOf(blob) == KeyOf(Current(w.index, b, name).value)
    requires moved == w.(uploads := moved.uploads) && TellUpdate(w.store, b, slots[name], blob) == Ok(told)
    ensures Update(moved, slots, b, name, blob) == Ok(after) && Updated(w, after, slots, b, blob)
    ensures after.store == told && after.uploads == moved.uploads && (b, name) !in after.behind
  {
    hide *;
    Parts(w, slots);
    TreeOf(w, slots, b);
    IndexUpdate(w.index, slots, w.generation, b, blob);
    UpdateOneObject(w.index, b, blob);
    after := UpdateIs(w, moved, slots, b, name, blob, told);
    UpdatedFrom(w, after, slots, b, name, blob);
  }

  /** The live object, its entry, and what holds of it. */
  lemma LiveBlob(w: World, slots: Slots, b: string, name: string)
    requires Layout(slots) && Sound(w, slots) && b in w.index.buckets && name in slots && Current(w.index, b, name).Some?
    ensures var blob := Current(w.index, b, name).value;
            && blob.meta.name == name && BlobSound(w.store, w.uploads, b, KeyOf(blob), blob)
            && 1 <= blob.meta.generation <= w.generation
            && LiveGeneration(w.index, b, name) == Some(blob.meta.generation)
            && EntryAt(w.store.fs, b, slots[name]).Some?
            && MirrorAt(w.store, Some(blob), EntryAt(w.store.fs, b, slots[name]), Lag(w.behind, b, name))
            && SameInode(w.store, blob.media, EntryAt(w.store.fs, b, slots[name]).value.inode)
  {
    hide Layout, TreesSound, EntryAt, Tidy, Handles, UploadsSound, SameInode, BlobSound;
    LiveKey(w.index, slots, w.generation, b, name);
  }

  lemma MirrorThere(w: World, slots: Slots, b: string, n: string)
    requires Layout(slots) && Sound(w, slots) && b in w.index.buckets && n in slots
    ensures MirrorAt(w.store, Current(w.index, b, n), EntryAt(w.store.fs, b, slots[n]), Lag(w.behind, b, n))
  {
    hide Layout, TreesSound, Handles, BlobsSound, UploadsSound, IndexSound, OwnersSound, MirrorAt, Current, EntryAt;
  }

  /** The step of the mirror for an update whose bytes stay on their inode. */
  lemma UpdateMirror(before: Store, after: Store, slots: Slots, b: string, blob: Blob, media: MediaRef)
    requires Layout(slots) && ToldUpdate(before, after, slots, b, blob) && BytesKept(before, after) && blob.media == media
    requires SameInode(before, media, EntryAt(before.fs, b, slots[blob.meta.name]).value.inode)
    ensures MirrorAt(after, Some(blob), EntryAt(after.fs, b, slots[blob.meta.name]), None)
  {
    hide Layout, EntryAt, SameInode, BytesKept, Stepped;
    SameInodeStays(before, after, media, EntryAt(before.fs, b, slots[blob.meta.name]).value.inode);
  }

  /** An update of the live object with what holds of the new one. */
  lemma SoundUpdate(w: World, slots: Slots, b: string, name: string, blob: Blob)
    requires Layout(slots) && Sound(w, slots) && b in w.index.buckets && name in slots
    requires Current(w.index, b, name).Some?
    requires var current := Current(w.index, b, name).value; KeyOf(blob) == KeyOf(current) && blob.media == current.media && blob.upload == current.upload
    requires BlobSound(w.store, w.uploads, b, KeyOf(blob), blob) && !Seals(w.store, blob)
    ensures Named(slots)
    ensures var r := Update(w, slots, b, name, blob);
            && r.Ok? && Sound(r.value, slots) && (b, name) !in r.value.behind && Evolves(w.store, r.value.store)
            && BytesKept(w.store, r.value.store) && Current(r.value.index, b, name) == Some(blob)
  {
    hide Sound, Layout, Tidy, EntryAt, TellUpdate, Update, Updated, ToldUpdate, Quiet, StagingKept, BlobSound, Seals, SameInode,
         MirrorAt, Current;
    TreeOf(w, slots, b);
    LiveBlob(w, slots, b, name);
    var told := TellsUpdate(w.store, slots, b, name, blob);
    var after := UpdatesWorld(w, w, slots, b, name, blob, told);
    UpdateKept(w, after, slots, b, blob);
    Parts(w, slots);
    QuietEvolves(w.store, told);
    QuietKeeps(w.store, told);
    UpdatedCurrent(w, after, slots, b, blob);
  }

  /** An update that raises: the object is changed, the store keeps the metadata it was last told. */
  lemma SoundUntold(w: World, slots: Slots, b: string, name: string, attributes: map<string, string>)
    requires Layout(slots) && Sound(w, slots) && b in w.index.buckets && name in slots && Current(w.index, b, name).Some?
    ensures var after := Untold(w, b, name, Current(w.index, b, name).value, attributes); Sound(after, slots) && after.store == w.store
  {
    hide Sound, Layout, Tidy, EntryAt, TreesSound, Mirror, Handles, BlobsSound, Stepped, StagingKept, BlobSound, SameInode,
         IndexSound, OneName, OneObject, BytesKept, Carried, AllCarried, StagingOnlyGoes, Current, Quiet, OwnersSound, Absorb;
    var before := Current(w.index, b, name).value;
    var blob := Merged(before, attributes);
    var after := Untold(w, b, name, before, attributes);
    Parts(w, slots);
    TreeOf(w, slots, b);
    LiveBlob(w, slots, b, name);
    MirrorThere(w, slots, b, name);
    SameObjectSound(w, slots, b, name);
    IndexUpdate(w.index, slots, w.generation, b, blob);
    UpdateOneObject(w.index, b, blob);
    MergedSound(w.store, w.uploads, b, KeyOf(blob), before, attributes);
    QuietSame(w.store);
    QuietKeeps(w.store, w.store);
    QuietAll(w.store, w.store, w.uploads, w.uploads, w.index, b, KeyOf(blob));
    SteppedNot(w.store.fs, slots, b, name);
    MergedOwners(w, after, b, KeyOf(blob), before, blob);
    ObjectStep(w, after, slots, b, KeyOf(blob));
  }

  lemma MergedSound(store: Store, uploads: seq<Upload>, b: string, key: Key, blob: Blob, attributes: map<string, string>)
    requires BlobSound(store, uploads, b, key, blob)
    ensures BlobSound(store, uploads, b, key, Merged(blob, attributes))
  {
    hide Crc32c;
  }

  lemma MergedOwners(w: World, after: World, b: string, key: Key, before: Blob, blob: Blob)
    requires OwnersSound(w.uploads, w.index, w.generation) && after.uploads == w.uploads && after.generation == w.generation
    requires OneObject(w.index, after.index, b, key) && b in w.index.objects && key in w.index.objects[b] && w.index.objects[b][key] == before
    requires b in after.index.objects && key in after.index.objects[b] && after.index.objects[b][key] == blob
    requires blob.media == before.media && blob.upload == before.upload
    ensures OwnersSound(after.uploads, after.index, after.generation)
  {
    OwnersStep(w.uploads, after.uploads, w.index, after.index, w.generation, after.generation, b, key);
  }

  lemma QuietSame(store: Store)
    ensures Quiet(store, store) && StagingKept(store.fs, store.fs, None)
  {
  }

  lemma SteppedNot(fs: Fs, slots: Slots, b: string, name: string)
    requires Layout(slots) && b in fs.trees && Tidy(fs.trees[b], fs.inodes, slots)
    ensures Stepped(fs, fs, slots, b, name)
  {
  }

  lemma UpdatedCurrent(w: World, after: World, slots: Slots, b: string, blob: Blob)
    requires Updated(w, after, slots, b, blob)
    ensures Current(after.index, b, blob.meta.name) == Some(blob)
  {
    hide IndexSound, OneName, OneObject, Current;
  }

  lemma UpdateKept(w: World, after: World, slots: Slots, b: string, blob: Blob)
    requires Layout(slots) && Sound(w, slots) && b in w.index.buckets && blob.meta.name in slots
    requires Current(w.index, b, blob.meta.name).Some?
    requires var current := Current(w.index, b, blob.meta.name).value;
             KeyOf(blob) == KeyOf(current) && blob.media == current.media && blob.upload == current.upload
    requires BlobSound(w.store, w.uploads, b, KeyOf(blob), blob)
    requires Updated(w, after, slots, b, blob) && after.uploads == w.uploads && (b, blob.meta.name) !in after.behind
    requires ToldUpdate(w.store, after.store, slots, b, blob)
    requires Quiet(w.store, after.store) && StagingKept(w.store.fs, after.store.fs, None)
    ensures Sound(after, slots)
  {
    hide Sound, Layout, Tidy, EntryAt, TreesSound, Mirror, Handles, BlobsSound, Stepped, StagingKept, BlobSound, SameInode, MirrorAt,
         IndexSound, OneName, OneObject, OneBehind, BytesKept, Carried, AllCarried, StagingOnlyGoes;
    var name := blob.meta.name;
    Parts(w, slots);
    LiveBlob(w, slots, b, name);
    QuietKeeps(w.store, after.store);
    QuietAll(w.store, after.store, w.uploads, w.uploads, w.index, b, KeyOf(blob));
    QuietCarries(w.store, after.store, blob.media);
    BlobStays(w.store, after.store, w.uploads, w.uploads, b, KeyOf(blob), blob);
    SameObjectSound(w, slots, b, name);
    OwnersUpdate(w, after, slots, b, blob);
    UpdateMirror(w.store, after.store, slots, b, blob, blob.media);
    ObjectStep(w, after, slots, b, KeyOf(blob));
  }

  // ---- The update that finalizes ----

  lemma FinalSound(before: Store, after: Store, uploads: seq<Upload>, moved: seq<Upload>, b: string, key: Key, id: nat, blob: Blob)
    requires Handles(before) && BytesKept(before, after) && Settles(before, after, id)
    requires id < |uploads| && moved == Ended(uploads, id)
    requires BlobSound(before, uploads, b, key, blob) && blob.upload && blob.media == OnDisk(id)
    ensures BlobSound(after, moved, b, key, Finalized(blob, before.medias[id], id))
  {
    HandleMeasures(before, id);
  }

  lemma StagedLive(w: World, slots: Slots, b: string, name: string, id: nat)
    requires Layout(slots) && Sound(w, slots) && b in w.index.buckets && name in slots && Current(w.index, b, name).Some?
    requires var blob := Current(w.index, b, name).value; blob.upload && blob.media == OnDisk(id)
    ensures EntryAt(w.store.fs, b, slots[name]).Some? && id < |w.uploads| && id < |w.store.medias|
    ensures StagedHere(w.store, b, id, EntryAt(w.store.fs, b, slots[name]).value.inode)
    ensures w.uploads[id] == Upload(b, KeyOf(Current(w.index, b, name).value), Attached)
  {
    hide Layout, TreesSound, EntryAt, Tidy, BlobsSound, Mirror, IndexSound, Measured;
    LiveBlob(w, slots, b, name);
    assert HandleSound(w.store.fs, w.store.medias[id]);
  }

  lemma SoundSeal(w: World, slots: Slots, b: string, name: string, id: nat, blob: Blob)
    requires Layout(slots) && Sound(w, slots) && b in w.index.buckets && name in slots && Current(w.index, b, name).Some?
    requires var current := Current(w.index, b, name).value;
             current.upload && current.media == OnDisk(id) && id < |w.store.medias| && id < |w.uploads|
             && blob == Finalized(current, w.store.medias[id], id)
    ensures Named(slots)
    ensures var r := Update(w.(uploads := Ended(w.uploads, id)), slots, b, name, blob);
            && r.Ok? && Sound(r.value, slots) && (b, name) !in r.value.behind && Settles(w.store, r.value.store, id)
            && Evolves(w.store, r.value.store) && BytesKept(w.store, r.value.store)
            && Current(r.value.index, b, name) == Some(blob)
  {
    hide Sound, Layout, Tidy, EntryAt, TellUpdate, Update, Updated, ToldUpdate, Settles, StagingKept, BlobSound, Seals, SameInode,
         MirrorAt, Current, StagedHere;
    TreeOf(w, slots, b);
    LiveBlob(w, slots, b, name);
    StagedLive(w, slots, b, name, id);
    var told := TellsSealing(w.store, slots, b, name, blob, id);
    var after := UpdatesWorld(w, w.(uploads := Ended(w.uploads, id)), slots, b, name, blob, told);
    SealKept(w, after, slots, b, id, blob);
    Parts(w, slots);
    SettlesEvolves(w.store, told, id);
    SettlesKeeps(w.store, told, id);
    UpdatedCurrent(w, after, slots, b, blob);
  }

  lemma SealKept(w: World, after: World, slots: Slots, b: string, id: nat, blob: Blob)
    requires Layout(slots) && Sound(w, slots) && b in w.index.buckets && blob.meta.name in slots
    requires Current(w.index, b, blob.meta.name).Some? && id < |w.store.medias| && id < |w.uploads|
    requires var current := Current(w.index, b, blob.meta.name).value;
             current.upload && current.media == OnDisk(id) && blob == Finalized(current, w.store.medias[id], id)
    requires Updated(w, after, slots, b, blob) && after.uploads == Ended(w.uploads, id) && (b, blob.meta.name) !in after.behind
    requires ToldUpdate(w.store, after.store, slots, b, blob) && Settles(w.store, after.store, id)
    ensures Sound(after, slots)
  {
    hide Sound, Layout, Tidy, EntryAt, TreesSound, Mirror, Handles, BlobsSound, Stepped, StagingKept, BlobSound, SameInode, MirrorAt,
         IndexSound, OneName, OneObject, OneBehind, BytesKept, Carried, AllCarried, OwnersSound, UploadsSound;
    var name := blob.meta.name;
    Parts(w, slots);
    LiveBlob(w, slots, b, name);
    StagedLive(w, slots, b, name, id);
    SettlesKeeps(w.store, after.store, id);
    EndedUploads(w.store, after.store, w.uploads, id);
    SettlesAll(w.store, after.store, id, w.uploads, after.uploads, w.index, b, KeyOf(blob));
    FinalSound(w.store, after.store, w.uploads, after.uploads, b, KeyOf(blob), id, Current(w.index, b, name).value);
    SameObjectSound(w, slots, b, name);
    OwnersUpdate(w, after, slots, b, blob);
    UpdateMirror(w.store, after.store, slots, b, blob, blob.media);
    ObjectStep(w, after, slots, b, KeyOf(blob));
  }

  lemma EndedUploads(before: Store, after: Store, uploads: seq<Upload>, id: nat)
    requires UploadsSound(before, uploads) && Settles(before, after, id) && id < |uploads|
    ensures UploadsSound(after, Ended(uploads, id))
  {
    hide StagingKept;
  }

  // ---- The empty insert of an appendable object ----

  ghost predicate ToldLinked(before: Store, after: Store, slots: Slots, b: string, blob: Blob, id: nat)
    requires Layout(slots)
  {
    match before
    case Store(fs, _) =>
      && blob.media == OnDisk(id) && blob.upload && blob.meta.name in slots
      && Stepped(fs, after.fs, slots, b, blob.meta.name) && Quiet(before, after) && StagingKept(fs, after.fs, None)
      && MediaInode(before, id).Some?
      && EntryAt(after.fs, b, slots[blob.meta.name]) == Some(Entry(blob.meta, MediaInode(before, id).value))
  }

  lemma TellsLinked(store: Store, slots: Slots, b: string, name: string, blob: Blob, id: nat) returns (told: Store)
    requires Layout(slots) && name in slots && blob.meta.name == name && blob.media == OnDisk(id) && blob.upload
    requires b in store.fs.trees && Tidy(store.fs.trees[b], store.fs.inodes, slots)
    requires MediaInode(store, id).Some? && StagedHere(store, b, id, MediaInode(store, id).value)
    requires FreeFor(store.fs.trees[b], slots, name, MediaInode(store, id).value)
    ensures Named(slots) && TellInsert(store, b, slots[name], blob) == Ok(told) && ToldLinked(store, told, slots, b, blob, id)
    ensures told.medias == store.medias
  {
    hide Layout, Tidy, Stepped, EntryAt, TellInsert, FreeFor, StagedHere;
    SlotsNamed(slots);
    InsertsLinked(store, slots, b, name, blob, MediaInode(store, id).value);
    told := TellInsert(store, b, slots[name], blob).value;
    PrefixOfMore(store.fs.inodes, ObjectSidecar(name, blob.meta));
    assert Quiet(store, told);
  }

  lemma EmptySound(before: Store, after: Store, uploads: seq<Upload>, b: string, key: Key, id: nat, attributes: map<string, string>)
    requires Handles(before) && BytesKept(before, after) && Quiet(before, after) && StagingKept(before.fs, after.fs, None)
    requires id < |uploads| && uploads[id] == Upload(b, key, Attached) && StagedNow(before, OnDisk(id))
    ensures BlobSound(after, uploads, b, key, EmptyBlob(key, id, attributes))
  {
    QuietCarries(before, after, OnDisk(id));
  }

  lemma PutLinked(w: World, after: World, slots: Slots, b: string, blob: Blob, id: nat)
    requires Layout(slots) && Sound(w, slots) && b in w.index.buckets && blob.meta.name in slots
    requires id < |w.uploads| && w.uploads[id].phase == Staged && w.uploads[id].bucket == b
    requires after.uploads == w.uploads[id := Upload(b, KeyOf(blob), Attached)]
    requires Inserted(w, after, slots, b, blob) && ToldLinked(w.store, after.store, slots, b, blob, id)
    requires blob.meta.generation == w.generation + 1
    requires (b, blob.meta.name) !in after.behind
    requires BlobSound(after.store, after.uploads, b, KeyOf(blob), blob)
    ensures Sound(after, slots)
  {
    hide Layout, Sound, Stepped, TreesSound, Mirror, IndexSound, Inserted, BlobSound, OwnersSound, AllCarried, BytesKept, Handles,
         EntryAt, Quiet, StagingKept, UploadsSound;
    Parts(w, slots);
    QuietKeeps(w.store, after.store);
    LinkedMoved(w.store, after.store, id, w.uploads, after.uploads);
    QuietAll(w.store, after.store, w.uploads, after.uploads, w.index, b, KeyOf(blob));
    OwnersInsert(w, after, slots, b, blob);
    InodeKept(w.store, after.store, id);
    InsertedSound(w, after, slots, b, blob, MediaInode(w.store, id).value);
  }

  lemma LinkedMoved(before: Store, after: Store, id: nat, uploads: seq<Upload>, moved: seq<Upload>)
    requires Quiet(before, after) && UploadsSound(before, uploads) && id < |uploads| && uploads[id].phase == Staged
    requires |moved| == |uploads| && moved == uploads[id := moved[id]] && moved[id].bucket == uploads[id].bucket
    ensures UploadsSound(after, moved) && id < |before.medias|
  {
  }

  /** An upload that was just staged becomes the writer of a new, empty object. */
  lemma SoundAttach(w: World, slots: Slots, id: nat, attributes: map<string, string>)
    requires Layout(slots) && Sound(w, slots) && id < |w.uploads| && w.uploads[id].phase == Staged
    requires w.uploads[id].bucket in w.index.buckets && w.uploads[id].key.name in slots
    requires StagingPlace(w, id).Some? && FileAt(w.store.fs, StagingPlace(w, id).value).Some?
    ensures Named(slots)
    ensures var b, name := w.uploads[id].bucket, w.uploads[id].key.name;
            var blob := EmptyBlob(Key(name, w.generation + 1), id, attributes);
            var r := Insert(Moved(w, id, Attached), slots, b, name, blob);
            && r.Ok? && Sound(r.value, slots) && (b, name) !in r.value.behind && Current(r.value.index, b, name) == Some(blob)
            && r.value.store.medias == w.store.medias && Evolves(w.store, r.value.store)
  {
    hide Sound, Layout, Tidy, Quiet, Inserted, ToldLinked, TellInsert, Insert, FreeFor, BlobSound, StagedHere, Current;
    var b, name := w.uploads[id].bucket, w.uploads[id].key.name;
    Shape(w, slots);
    TreeOf(w, slots, b);
    StagedIsHere(w, slots, id);
    StagedIsFree(w, slots, b, name, id, MediaInode(w.store, id).value);
    var blob := EmptyBlob(Key(name, w.generation + 1), id, attributes);
    var told := TellsLinked(w.store, slots, b, name, blob, id);
    var after := Inserts(w, Moved(w, id, Attached), slots, b, name, blob, told);
    AttachSound(w, after, slots, b, id, attributes, blob);
    Parts(w, slots);
    LinkedEvolve(w.store, told, slots, b, blob, id);
  }

  lemma LinkedEvolve(before: Store, after: Store, slots: Slots, b: string, blob: Blob, id: nat)
    requires Layout(slots) && ToldLinked(before, after, slots, b, blob, id) && Handles(before)
    ensures Evolves(before, after)
  {
    hide Layout, Handles, Stepped, Quiet;
    QuietEvolves(before, after);
  }

  lemma AttachSound(w: World, after: World, slots: Slots, b: string, id: nat, attributes: map<string, string>, blob: Blob)
    requires Layout(slots) && Sound(w, slots) && b in w.index.buckets && blob.meta.name in slots
    requires id < |w.uploads| && w.uploads[id].phase == Staged && w.uploads[id].bucket == b
    requires MediaInode(w.store, id).Some? && StagedHere(w.store, b, id, MediaInode(w.store, id).value)
    requires blob == EmptyBlob(KeyOf(blob), id, attributes)
    requires after.uploads == w.uploads[id := Upload(b, KeyOf(blob), Attached)]
    requires Inserted(w, after, slots, b, blob) && ToldLinked(w.store, after.store, slots, b, blob, id)
    requires blob.meta.generation == w.generation + 1
    requires (b, blob.meta.name) !in after.behind
    ensures Sound(after, slots) && Current(after.index, b, blob.meta.name) == Some(blob)
  {
    hide Layout, Sound, Stepped, TreesSound, Mirror, IndexSound, BlobSound, OneName, OneObject, Current;
    Parts(w, slots);
    QuietKeeps(w.store, after.store);
    EmptySound(w.store, after.store, after.uploads, b, KeyOf(blob), id, attributes);
    PutLinked(w, after, slots, b, blob, id);
  }

  // ---- The old object, reported after the new one ----

  lemma SameOneName(index: Index, b: string, key: Key)
    ensures OneName(index, index, b, key.name) && OneObject(index, index, b, key)
  {
  }

  lemma SameObjectSound(w: World, slots: Slots, b: string, name: string)
    requires Layout(slots) && Sound(w, slots) && b in w.index.buckets && name in slots && Current(w.index, b, name).Some?
    ensures var blob := Current(w.index, b, name).value;
            b in w.index.objects && KeyOf(blob) in w.index.objects[b] && w.index.objects[b][KeyOf(blob)] == blob
  {
    hide Layout, TreesSound, Mirror, Handles, BlobsSound, UploadsSound;
    LiveKey(w.index, slots, w.generation, b, name);
  }

  /** The sidecar of the replaced object is written over that of the one that replaces it. */
  lemma SoundBehind(w: World, slots: Slots, b: string, name: string, old_: Blob)
    requires Layout(slots) && Sound(w, slots) && b in w.index.buckets && name in slots
    requires Current(w.index, b, name).Some? && Current(w.index, b, name).value.upload
    requires old_.meta.name == name && old_.meta.generation != Current(w.index, b, name).value.meta.generation
    requires !Seals(w.store, old_)
    ensures Named(slots)
    ensures var r := TellUpdate(w.store, b, slots[name], old_);
            r.Ok? && Sound(w.(store := r.value, behind := w.behind[(b, name) := old_.meta]), slots) && Evolves(w.store, r.value)
  {
    hide Sound, Layout, Tidy, EntryAt, TellUpdate, ToldUpdate, Quiet, StagingKept, BlobSound, Seals, SameInode, MirrorAt, Current;
    TreeOf(w, slots, b);
    LiveBlob(w, slots, b, name);
    var told := TellsUpdate(w.store, slots, b, name, old_);
    BehindKept(w, w.(store := told, behind := w.behind[(b, name) := old_.meta]), slots, b, old_);
    Parts(w, slots);
    QuietEvolves(w.store, told);
  }

  lemma BehindKept(w: World, after: World, slots: Slots, b: string, old_: Blob)
    requires Layout(slots) && Sound(w, slots) && b in w.index.buckets && old_.meta.name in slots
    requires after == w.(store := after.store, behind := w.behind[(b, old_.meta.name) := old_.meta])
    requires var name := old_.meta.name;
             && Current(w.index, b, name).Some? && Current(w.index, b, name).value.upload
             && old_.meta.generation != Current(w.index, b, name).value.meta.generation
    requires ToldUpdate(w.store, after.store, slots, b, old_)
    requires Quiet(w.store, after.store) && StagingKept(w.store.fs, after.store.fs, None)
    ensures Sound(after, slots)
  {
    hide Sound, Layout, Tidy, EntryAt, TreesSound, Mirror, Handles, BlobsSound, Stepped, StagingKept, BlobSound, SameInode,
         IndexSound, OneName, OneObject, BytesKept, Carried, AllCarried, StagingOnlyGoes, Current;
    var name := old_.meta.name;
    var blob := Current(w.index, b, name).value;
    Parts(w, slots);
    LiveBlob(w, slots, b, name);
    SameObjectSound(w, slots, b, name);
    QuietKeeps(w.store, after.store);
    QuietAll(w.store, after.store, w.uploads, w.uploads, w.index, b, KeyOf(blob));
    QuietCarries(w.store, after.store, blob.media);
    BlobStays(w.store, after.store, w.uploads, w.uploads, b, KeyOf(blob), blob);
    SameInodeStays(w.store, after.store, blob.media, EntryAt(w.store.fs, b, slots[name]).value.inode);
    SameOneName(w.index, b, KeyOf(blob));
    ObjectStep(w, after, slots, b, KeyOf(blob));
  }

  // ---- Deletes ----

  lemma TellsDelete(store: Store, slots: Slots, b: string, name: string) returns (told: Store)
    requires Layout(slots) && name in slots
    requires b in store.fs.trees && Tidy(store.fs.trees[b], store.fs.inodes, slots)
    requires EntryAt(store.fs, b, slots[name]).Some?
    ensures Named(slots) && TellDelete(store, b, slots[name]) == Ok(told)
    ensures Quiet(store, told) && StagingKept(store.fs, told.fs, None)
    ensures Stepped(store.fs, told.fs, slots, b, name) && EntryAt(told.fs, b, slots[name]) == None
  {
    hide Layout, Tidy, Stepped, EntryAt, TellDelete;
    SlotsNamed(slots);
    EntryShelved(store.fs, slots, b, name);
    Deletes(store, slots, b, name);
    told := TellDelete(store, b, slots[name]).value;
  }

  lemma SoundDelete(w: World, slots: Slots, b: string, name: string)
    requires Layout(slots) && Sound(w, slots) && b in w.index.buckets && name in slots && Current(w.index, b, name).Some?
    ensures Named(slots)
    ensures var key := Key(name, Current(w.index, b, name).value.meta.generation);
            var r := Discard(w, slots, b, key);
            r.Ok? && Sound(r.value, slots) && Evolves(w.store, r.value.store)
  {
    hide Sound, Layout, Tidy, EntryAt, TellDelete, Quiet, StagingKept, BlobSound, SameInode, MirrorAt, Current, Stepped, Absorb;
    TreeOf(w, slots, b);
    LiveBlob(w, slots, b, name);
    var key := Key(name, Current(w.index, b, name).value.meta.generation);
    var told := TellsDelete(w.store, slots, b, name);
    var after := World(Absorb(w.index, ObjectDeleted(b, key)), told, w.uploads, w.generation, w.behind - {(b, name)}, w.labels);
    assert Discard(w, slots, b, key) == Ok(after);
    DeleteKept(w, after, slots, b, key);
    Parts(w, slots);
    QuietEvolves(w.store, told);
  }

  lemma DeleteOneObject(index: Index, b: string, key: Key)
    requires b in index.objects && b in index.live
    ensures var after := Absorb(index, ObjectDeleted(b, key));
            OneObject(index, after, b, key) && b in after.objects && key !in after.objects[b]
  {
  }

  lemma DeleteKept(w: World, after: World, slots: Slots, b: string, key: Key)
    requires Layout(slots) && Sound(w, slots) && b in w.index.buckets && key.name in slots
    requires LiveGeneration(w.index, b, key.name) == Some(key.generation)
    requires after == w.(index := Absorb(w.index, ObjectDeleted(b, key)), store := after.store, behind := w.behind - {(b, key.name)})
    requires Stepped(w.store.fs, after.store.fs, slots, b, key.name) && EntryAt(after.store.fs, b, slots[key.name]) == None
    requires Quiet(w.store, after.store) && StagingKept(w.store.fs, after.store.fs, None)
    ensures Sound(after, slots)
  {
    hide Sound, Layout, Tidy, EntryAt, TreesSound, Mirror, Handles, BlobsSound, Stepped, StagingKept, BlobSound, SameInode,
         IndexSound, OneName, OneObject, BytesKept, AllCarried, StagingOnlyGoes, Current, Absorb, OwnersSound;
    Parts(w, slots);
    TreeOf(w, slots, b);
    IndexDelete(w.index, slots, w.generation, b, key);
    DeleteOneObject(w.index, b, key);
    QuietKeeps(w.store, after.store);
    QuietAll(w.store, after.store, w.uploads, w.uploads, w.index, b, key);
    OwnersStep(w.uploads, w.uploads, w.index, after.index, w.generation, w.generation, b, key);
    ObjectStep(w, after, slots, b, key);
  }

  /** A delete of a generation whose name has no live one finds no files. */
  lemma NothingToDelete(w: World, slots: Slots, b: string, key: Key)
    requires Layout(slots) && Named(slots) && Sound(w, slots) && b in w.index.buckets && key.name in slots
    requires LiveGeneration(w.index, b, key.name).None? && IsDir(w.store.fs.trees[b], Dir(slots[key.name].media))
    ensures TellDelete(w.store, b, slots[key.name]) == Ok(w.store)
  {
    hide Layout, Sound, Tidy, Current;
    TreeOf(w, slots, b);
    MirrorThere(w, slots, b, key.name);
    assert Current(w.index, b, key.name) == None by { NoLiveNone(w.index, b, key.name); }
    EntryShelved(w.store.fs, slots, b, key.name);
  }

  lemma NoLiveNone(index: Index, b: string, name: string)
    requires LiveGeneration(index, b, name).None?
    ensures Current(index, b, name) == None
  {
  }

  lemma SoundDeleteOld(w: World, slots: Slots, b: string, key: Key)
    requires Layout(slots) && Named(slots) && Sound(w, slots) && b in w.index.buckets && key.name in slots
    requires LiveGeneration(w.index, b, key.name).None? && Generation(w.index, b, key).Some?
    requires b in w.store.fs.trees && IsDir(w.store.fs.trees[b], Dir(slots[key.name].media))
    ensures var r := Discard(w, slots, b, key); r.Ok? && Sound(r.value, slots) && r.value.store == w.store
  {
    hide Sound, Layout, TellDelete, Absorb, Current, LiveGeneration;
    NothingToDelete(w, slots, b, key);
    var after := Discard(w, slots, b, key).value;
    OldKept(w, after, slots, b, key);
  }

  lemma OldKept(w: World, after: World, slots: Slots, b: string, key: Key)
    requires Layout(slots) && Sound(w, slots) && b in w.index.buckets && key.name in slots
    requires LiveGeneration(w.index, b, key.name).None?
    requires after == w.(index := Absorb(w.index, ObjectDeleted(b, key)), behind := w.behind - {(b, key.name)})
    ensures Sound(after, slots)
  {
    hide Layout, TreesSound, Handles, UploadsSound, BlobSound, Absorb, EntryAt, MirrorAt, IndexSound, OwnersSound, Current, BlobsSound;
    Parts(w, slots);
    TreeOf(w, slots, b);
    OldIndex(w.index, slots, w.generation, b, key);
    FewerObjects(w.store, w.uploads, w.index, after.index, w.generation);
    NoLiveNone(w.index, b, key.name);
    forall c, n | c in after.index.buckets && n in slots
      ensures MirrorAt(w.store, Current(after.index, c, n), EntryAt(w.store.fs, c, slots[n]), Lag(after.behind, c, n))
    {
      OldCurrent(w.index, b, key, c, n);
      assert MirrorAt(w.store, Current(w.index, c, n), EntryAt(w.store.fs, c, slots[n]), Lag(w.behind, c, n));
      if (c, n) == (b, key.name) {
        NoneAnyway(w.store, EntryAt(w.store.fs, c, slots[n]), Lag(w.behind, c, n), Lag(after.behind, c, n));
      }
    }
  }

  lemma NoneAnyway(store: Store, entry: Option<Entry>, lag: Option<ObjectMeta>, other: Option<ObjectMeta>)
    requires MirrorAt(store, None, entry, lag)
    ensures MirrorAt(store, None, entry, other)
  {
  }

  lemma OldIndex(index: Index, slots: Slots, generation: nat, b: string, key: Key)
    requires IndexSound(index, slots, generation) && b in index.buckets && LiveGeneration(index, b, key.name).None?
    ensures var after := Absorb(index, ObjectDeleted(b, key));
            && IndexSound(after, slots, generation) && after.buckets == index.buckets
            && forall c, k :: c in after.objects && k in after.objects[c] ==>
                                c in index.objects && k in index.objects[c] && after.objects[c][k] == index.objects[c][k]
  {
    hide Absorb, LiveGeneration;
    OldIs(index, b, key);
    FewerSound(index, slots, generation, b, key);
  }

  lemma OldIs(index: Index, b: string, key: Key)
    requires b in index.objects && b in index.live && LiveGeneration(index, b, key.name).None?
    ensures Absorb(index, ObjectDeleted(b, key)) == index.(objects := index.objects[b := index.objects[b] - {key}])
  {
    assert index.live[b := index.live[b]] == index.live;
  }

  lemma FewerSound(index: Index, slots: Slots, generation: nat, b: string, key: Key)
    requires IndexSound(index, slots, generation) && b in index.buckets && LiveGeneration(index, b, key.name).None?
    ensures IndexSound(index.(objects := index.objects[b := index.objects[b] - {key}]), slots, generation)
  {
    hide IndexSound;
    LiveThere(index, slots, generation);
    BucketsOf(index, slots, generation);
    LiveLeft(index, index.(objects := index.objects[b := index.objects[b] - {key}]), slots, generation);
  }

  lemma LiveThere(index: Index, slots: Slots, generation: nat)
    requires IndexSound(index, slots, generation)
    ensures index.objects.Keys == index.live.Keys
    ensures forall c, n :: c in index.live && n in index.live[c] ==> Key(n, index.live[c][n]) in index.objects[c]
  {
  }

  /** Some objects are gone, but none that is live. */
  lemma LiveLeft(index: Index, after: Index, slots: Slots, generation: nat)
    requires IndexSound(index, slots, generation)
    requires after.buckets == index.buckets && after.live == index.live && after.objects.Keys == index.objects.Keys
    requires forall c, k :: c in after.objects && k in after.objects[c] ==> k in index.objects[c] && after.objects[c][k] == index.objects[c][k]
    requires forall c, n :: c in after.live && n in after.live[c] ==> c in after.objects && Key(n, after.live[c][n]) in after.objects[c]
    ensures IndexSound(after, slots, generation)
  {
  }

  lemma OldCurrent(index: Index, b: string, key: Key, c: string, n: string)
    requires b in index.objects && b in index.live && LiveGeneration(index, b, key.name).None?
    ensures Current(Absorb(index, ObjectDeleted(b, key)), c, n) == Current(index, c, n)
  {
  }

  lemma FewerObjects(store: Store, uploads: seq<Upload>, index: Index, after: Index, generation: nat)
    requires BlobsSound(store, uploads, index) && OwnersSound(uploads, index, generation)
    requires forall c, k :: c in after.objects && k in after.objects[c] ==>
                              c in index.objects && k in index.objects[c] && after.objects[c][k] == index.objects[c][k]
    ensures BlobsSound(store, uploads, after) && OwnersSound(uploads, after, generation)
  {
    hide BlobSound;
  }

  // ---- Steps that only the store sees ----

  /** Every name shows the same entry as before. */
  ghost predicate EntriesKept(before: Fs, after: Fs, slots: Slots) {
    match before
    case Fs(trees, _, _) =>
      after.trees.Keys == trees.Keys && forall b, n :: b in trees && n in slots ==> EntryAt(after, b, slots[n]) == EntryAt(before, b, slots[n])
  }

  /** Every inode that bytes were found on still has them. */
  ghost predicate InodesKept(w: World, after: Store, slots: Slots) {
    match w
    case World(index, store, _, _, _, _) =>
      forall b, n :: b in index.buckets && n in slots && Current(index, b, n).Some? && EntryAt(store.fs, b, slots[n]).Some? ==>
                       SameInode(after, Current(index, b, n).value.media, EntryAt(store.fs, b, slots[n]).value.inode)
  }

  lemma MirrorKept(w: World, after: World, slots: Slots)
    requires Mirror(w, slots) && after.index == w.index && after.behind == w.behind
    requires w.store.fs.trees.Keys == w.index.buckets.Keys
    requires EntriesKept(w.store.fs, after.store.fs, slots) && InodesKept(w, after.store, slots)
    ensures Mirror(after, slots)
  {
    hide EntryAt, Current, SameInode;
    forall b, n | b in w.index.buckets && n in slots
      ensures MirrorAt(after.store, Current(w.index, b, n), EntryAt(after.store.fs, b, slots[n]), Lag(w.behind, b, n))
    {
      assert MirrorAt(w.store, Current(w.index, b, n), EntryAt(w.store.fs, b, slots[n]), Lag(w.behind, b, n));
    }
  }

  lemma OnlyStagingTrees(fs: Fs, after: Fs, labels: map<string, BucketMeta>, slots: Slots, b: string)
    requires Layout(slots) && TreesSound(fs, labels, slots) && OnlyStaging(fs, after, slots, b) && fs.inodes <= after.inodes
    ensures TreesSound(after, labels, slots) && EntriesKept(fs, after, slots)
  {
    hide Layout, Labelled, EntryIn, NoStrayFiles, NoStrayDirs, AllShelved, Unshared, StagedMedia, LabelOf;
    PrefixKeepsKinds(fs.inodes, after.inodes);
    forall c | c in labels
      ensures Tidy(after.trees[c], after.inodes, slots) && LabelOf(after.trees[c], after.inodes) == labels[c]
      ensures forall n :: n in slots ==> EntryAt(after, c, slots[n]) == EntryAt(fs, c, slots[n])
    {
      if c != b {
        TidyGrows(fs.trees[c], fs.inodes, after.inodes, slots);
      }
    }
  }

  lemma StagedInode(before: Store, after: Store, place: Place, media: MediaRef, inode: Inode)
    requires NewlyStaged(before, after, place) && IsStaging(place.path)
    requires forall k :: 0 <= k < |before.medias| ==> MediaInode(after, k) == MediaInode(before, k)
    requires SameInode(before, media, inode)
    ensures SameInode(after, media, inode)
  {
    NewHandle(before, after, place);
  }

  lemma StagedCarries(before: Store, after: Store, place: Place, media: MediaRef)
    requires NewlyStaged(before, after, place) && Handles(before)
    requires forall k :: 0 <= k < |before.medias| ==> MediaInode(after, k) == MediaInode(before, k) && MediaBytes(after, k) == MediaBytes(before, k)
    requires forall k :: 0 <= k < |before.medias| && before.medias[k].staging.Some? ==> before.medias[k].staging.value.place != place
    requires media.OnDisk? ==> media.id < |before.medias|
    ensures Carried(before, after, media)
  {
    if media.OnDisk? {
      assert after.medias[media.id] == after.medias[..|before.medias|][media.id];
      assert HandleSound(before.fs, before.medias[media.id]);
    }
  }

  lemma StagedBlobs(before: Store, after: Store, place: Place, uploads: seq<Upload>, more: seq<Upload>, index: Index)
    requires NewlyStaged(before, after, place) && Handles(before) && BlobsSound(before, uploads, index)
    requires |uploads| == |before.medias| && uploads <= more
    requires forall k :: 0 <= k < |before.medias| ==> MediaInode(after, k) == MediaInode(before, k) && MediaBytes(after, k) == MediaBytes(before, k)
    requires forall k :: 0 <= k < |before.medias| && before.medias[k].staging.Some? ==> before.medias[k].staging.value.place != place
    ensures BlobsSound(after, more, index)
  {
    hide NewlyStaged, Handles;
    forall b, key | b in index.objects && key in index.objects[b]
      ensures BlobSound(after, more, b, key, index.objects[b][key])
    {
      var blob := index.objects[b][key];
      assert BlobSound(before, uploads, b, key, blob);
      StagedCarries(before, after, place, blob.media);
      if blob.media.OnDisk? {
        assert more[..|uploads|][blob.media.id] == more[blob.media.id];
      }
      BlobStays(before, after, uploads, more, b, key, blob);
    }
  }

  lemma SoundStage(w: World, slots: Slots, b: string, uploadId: string, name: string)
    requires Layout(slots) && Sound(w, slots) && b in w.index.buckets && name in slots && FreshUpload(w, b, uploadId)
    ensures var r, id := StartUpload(w, b, uploadId, name), |w.uploads|;
            && r.Ok? && Sound(r.value, slots) && Evolves(w.store, r.value.store)
            && r.value == w.(store := r.value.store, uploads := w.uploads + [Upload(b, Key(name, 0), Staged)])
            && StagingPlace(r.value, id).Some? && FileAt(r.value.store.fs, StagingPlace(r.value, id).value).Some?
  {
    hide Sound, Layout, Tidy, StageUpload, OnlyStaging;
    var place := Place(b, StagingPath(uploadId));
    Shape(w, slots);
    TreeOf(w, slots, b);
    Stages(w.store, slots, b, uploadId);
    var after := StartUpload(w, b, uploadId, name).value;
    forall k | 0 <= k < |w.store.medias| && w.store.medias[k].staging.Some?
      ensures w.store.medias[k].staging.value.place != place
    {
      assert StagingPlace(w, k) != Some(place);
    }
    StageKept(w, after, slots, b, place, name);
  }

  lemma StageKept(w: World, after: World, slots: Slots, b: string, place: Place, name: string)
    requires Layout(slots) && Sound(w, slots) && place.bucket == b && IsStaging(place.path)
    requires NewlyStaged(w.store, after.store, place) && OnlyStaging(w.store.fs, after.store.fs, slots, b)
    requires after == w.(store := after.store, uploads := w.uploads + [Upload(b, Key(name, 0), Staged)])
    requires forall k :: 0 <= k < |w.store.medias| && w.store.medias[k].staging.Some? ==> w.store.medias[k].staging.value.place != place
    ensures Sound(after, slots) && Evolves(w.store, after.store)
  {
    hide Layout, OnlyStaging, TreesSound, Mirror, Handles, BlobsSound, IndexSound, MediaBytes, SameInode, EntryAt, Current;
    Parts(w, slots);
    StagedKeeps(w.store, after.store, place);
    StagedEvolves(w.store, after.store, place);
    PrefixOfMore(w.uploads, Upload(b, Key(name, 0), Staged));
    PrefixOfMore(w.store.fs.inodes, Content.Media([]));
    StagedBlobs(w.store, after.store, place, w.uploads, after.uploads, w.index);
    OnlyStagingTrees(w.store.fs, after.store.fs, w.labels, slots, b);
    Shape(w, slots);
    StagedUploads(w.store, after.store, place, w.uploads, after.uploads);
    StagedOwners(w.uploads, after.uploads, w.index, w.generation);
    forall c, n | c in w.index.buckets && n in slots && Current(w.index, c, n).Some? && EntryAt(w.store.fs, c, slots[n]).Some?
      ensures SameInode(after.store, Current(w.index, c, n).value.media, EntryAt(w.store.fs, c, slots[n]).value.inode)
    {
      LiveBlob(w, slots, c, n);
      StagedInode(w.store, after.store, place, Current(w.index, c, n).value.media, EntryAt(w.store.fs, c, slots[n]).value.inode);
    }
    MirrorKept(w, after, slots);
  }

  lemma StagedOwners(uploads: seq<Upload>, more: seq<Upload>, index: Index, generation: nat)
    requires OwnersSound(uploads, index, generation) && |more| == |uploads| + 1 && uploads <= more && more[|uploads|].phase == Staged
    ensures OwnersSound(more, index, generation)
  {
    forall k | 0 <= k < |uploads|
      ensures more[k] == uploads[k]
    {
      assert more[..|uploads|][k] == more[k];
    }
  }

  lemma StagedUploads(before: Store, after: Store, place: Place, uploads: seq<Upload>, more: seq<Upload>)
    requires NewlyStaged(before, after, place) && UploadsSound(before, uploads)
    requires |more| == |uploads| + 1 && uploads <= more && more[|uploads|].bucket == place.bucket
    ensures UploadsSound(after, more)
  {
    forall k | 0 <= k < |uploads|
      ensures more[k] == uploads[k] && after.medias[k] == before.medias[k]
    {
      assert more[..|uploads|][k] == more[k] && after.medias[..|before.medias|][k] == after.medias[k];
    }
  }

  // ---- Appends ----

  lemma TellsGrow(store: Store, slots: Slots, id: nat, data: Bytes) returns (told: Store)
    requires Layout(slots) && Tidied(store.fs, slots) && Handles(store) && id < |store.medias| && store.medias[id].staging.Some?
    ensures Grow(store, id, data) == Ok(told) && Grew(store, told, id, data)
  {
    hide Layout, Tidied, Grow, Rolling, Crc32c, KindsKept;
    assert HandleSound(store.fs, store.medias[id]);
    Grows(store, slots, id, data);
    told := Grow(store, id, data).value;
  }

  lemma GrewCarries(before: Store, after: Store, id: nat, data: Bytes, media: MediaRef)
    requires Grew(before, after, id, data) && Handles(before)
    ensures BytesBehind(after, media) == BytesBehind(before, media) + if media == OnDisk(id) then data else []
    ensures StagedNow(before, media) ==> StagedNow(after, media)
    ensures SettledNow(before, media) ==> SettledNow(after, media)
  {
    GrewKeeps(before, after, id, data);
  }

  /** Growing bytes do not belie the metadata of an object that is still written. */
  lemma GrowingMeasured(meta: ObjectMeta, bytes: Bytes, data: Bytes)
    requires Measured(meta, bytes) && meta.md5 == Md5([])
    ensures Measured(meta, bytes + data)
  {
    Crc32cOfNothing(0);
  }

  lemma GrewBlob(before: Store, after: Store, id: nat, data: Bytes, uploads: seq<Upload>, b: string, key: Key, blob: Blob)
    requires Grew(before, after, id, data) && Handles(before) && id < |before.medias| && before.medias[id].staging.Some?
    requires BlobSound(before, uploads, b, key, blob)
    ensures BlobSound(after, uploads, b, key, blob)
  {
    hide Grew, Handles, Measured;
    GrewCarries(before, after, id, data, blob.media);
    if blob.media == OnDisk(id) {
      GrowingMeasured(blob.meta, BytesBehind(before, blob.media), data);
    } else {
      assert BytesBehind(before, blob.media) + [] == BytesBehind(before, blob.media);
    }
  }

  lemma GrewInode(before: Store, after: Store, id: nat, data: Bytes, media: MediaRef, inode: Inode)
    requires Grew(before, after, id, data) && Handles(before) && SameInode(before, media, inode)
    ensures SameInode(after, media, inode)
  {
    GrewKeeps(before, after, id, data);
  }

  lemma GrewTrees(before: Store, after: Store, id: nat, data: Bytes, labels: map<string, BucketMeta>, slots: Slots)
    requires Layout(slots) && Grew(before, after, id, data) && TreesSound(before.fs, labels, slots)
    ensures TreesSound(after.fs, labels, slots) && EntriesKept(before.fs, after.fs, slots)
  {
    hide Layout, Labelled, EntryIn, NoStrayFiles, NoStrayDirs, AllShelved, Unshared, StagedMedia, LabelOf, KindsKept;
    forall b | b in labels
      ensures Tidy(after.fs.trees[b], after.fs.inodes, slots) && LabelOf(after.fs.trees[b], after.fs.inodes) == labels[b]
      ensures forall n :: n in slots ==> EntryAt(after.fs, b, slots[n]) == EntryAt(before.fs, b, slots[n])
    {
      TidyGrows(before.fs.trees[b], before.fs.inodes, after.fs.inodes, slots);
    }
  }

  lemma TreesTidied(fs: Fs, labels: map<string, BucketMeta>, slots: Slots)
    requires Layout(slots) && TreesSound(fs, labels, slots)
    ensures Tidied(fs, slots)
  {
  }

  lemma SoundGrow(w: World, slots: Slots, id: nat, data: Bytes)
    requires Layout(slots) && Sound(w, slots) && id < |w.store.medias| && w.store.medias[id].staging.Some?
    ensures var r := Grow(w.store, id, data);
            r.Ok? && Grew(w.store, r.value, id, data) && Sound(w.(store := r.value), slots) && Evolves(w.store, r.value)
  {
    hide Layout, Sound, TreesSound, Mirror, Handles, BlobsSound, IndexSound, UploadsSound, Grow, Grew, Tidied;
    Parts(w, slots);
    TreesTidied(w.store.fs, w.labels, slots);
    var told := TellsGrow(w.store, slots, id, data);
    GrowKept(w, w.(store := told), slots, id, data);
    GrewEvolves(w.store, told, id, data);
  }

  lemma GrowKept(w: World, after: World, slots: Slots, id: nat, data: Bytes)
    requires Layout(slots) && Sound(w, slots) && id < |w.store.medias| && w.store.medias[id].staging.Some?
    requires Grew(w.store, after.store, id, data) && after == w.(store := after.store)
    ensures Sound(after, slots)
  {
    hide Layout, TreesSound, Mirror, Handles, IndexSound, SameInode, EntryAt, Current, BlobSound;
    Parts(w, slots);
    GrewKeeps(w.store, after.store, id, data);
    GrewTrees(w.store, after.store, id, data, w.labels, slots);
    Shape(w, slots);
    forall b, key | b in w.index.objects && key in w.index.objects[b]
      ensures BlobSound(after.store, w.uploads, b, key, w.index.objects[b][key])
    {
      GrewBlob(w.store, after.store, id, data, w.uploads, b, key, w.index.objects[b][key]);
    }
    forall c, n | c in w.index.buckets && n in slots && Current(w.index, c, n).Some? && EntryAt(w.store.fs, c, slots[n]).Some?
      ensures SameInode(after.store, Current(w.index, c, n).value.media, EntryAt(w.store.fs, c, slots[n]).value.inode)
    {
      LiveBlob(w, slots, c, n);
      GrewInode(w.store, after.store, id, data, Current(w.index, c, n).value.media, EntryAt(w.store.fs, c, slots[n]).value.inode);
    }
    MirrorKept(w, after, slots);
  }

  // ---- Buckets ----

  /** The index with one bucket more, or another label on it. */
  lemma BucketIndex(index: Index, slots: Slots, generation: nat, bucket: BucketMeta)
    requires IndexSound(index, slots, generation) && !bucket.softDelete && bucket.name !in index.buckets
    ensures IndexSound(Absorb(index, BucketInserted(bucket)), slots, generation)
  {
    hide Absorb, IndexSound;
    NewBucketIs(index, bucket);
    BucketsOf(index, slots, generation);
    SameObjectsSound(index, Absorb(index, BucketInserted(bucket)), slots, generation);
  }

  lemma BucketsOf(index: Index, slots: Slots, generation: nat)
    requires IndexSound(index, slots, generation)
    ensures index.buckets.Keys == index.objects.Keys == index.live.Keys
    ensures forall b :: b in index.buckets ==> index.buckets[b].name == b && !index.buckets[b].softDelete
  {
  }

  /** Every bucket has the objects it had, or none. */
  lemma SameObjectsSound(index: Index, after: Index, slots: Slots, generation: nat)
    requires IndexSound(index, slots, generation) && after.buckets.Keys == after.objects.Keys == after.live.Keys
    requires forall b :: b in after.buckets ==> after.buckets[b].name == b && !after.buckets[b].softDelete
    requires forall b :: b in after.objects ==>
               || (after.objects[b] == map[] && after.live[b] == map[])
               || (b in index.objects && b in index.live && after.objects[b] == index.objects[b] && after.live[b] == index.live[b])
    ensures IndexSound(after, slots, generation)
  {
  }

  lemma NewBucketIs(index: Index, bucket: BucketMeta)
    ensures var after := Absorb(index, BucketInserted(bucket));
            && after.buckets == index.buckets[bucket.name := bucket]
            && after.objects == index.objects[bucket.name := map[]] && after.live == index.live[bucket.name := map[]]
  {
  }

  lemma RelabelIndex(index: Index, slots: Slots, generation: nat, bucket: BucketMeta)
    requires IndexSound(index, slots, generation) && !bucket.softDelete && bucket.name in index.buckets
    ensures IndexSound(Absorb(index, BucketUpdated(bucket)), slots, generation)
  {
  }

  lemma NewBucketCurrent(index: Index, bucket: BucketMeta, b: string, n: string)
    requires bucket.name !in index.buckets && index.buckets.Keys == index.objects.Keys == index.live.Keys
    ensures Current(Absorb(index, BucketInserted(bucket)), b, n) == if b == bucket.name then None else Current(index, b, n)
  {
  }

  lemma RelabelledCurrent(index: Index, bucket: BucketMeta, b: string, n: string)
    requires bucket.name in index.buckets
    ensures Current(Absorb(index, BucketUpdated(bucket)), b, n) == Current(index, b, n)
  {
  }

  lemma NewBucketBlobs(store: Store, uploads: seq<Upload>, index: Index, bucket: BucketMeta)
    requires BlobsSound(store, uploads, index)
    ensures BlobsSound(store, uploads, Absorb(index, BucketInserted(bucket)))
    ensures BlobsSound(store, uploads, Absorb(index, BucketUpdated(bucket)))
  {
    hide BlobSound;
  }

  /** Fewer objects, or the same. */
  lemma BucketOwners(uploads: seq<Upload>, index: Index, generation: nat, note: Note)
    requires OwnersSound(uploads, index, generation)
    requires note.BucketInserted? || note.BucketUpdated? || note.BucketDeleted? || note.Cleared?
    ensures OwnersSound(uploads, Absorb(index, note), generation)
  {
  }

  lemma QuietBlobs(before: Store, after: Store, uploads: seq<Upload>, index: Index)
    requires Quiet(before, after) && Handles(before) && StagingKept(before.fs, after.fs, None) && BlobsSound(before, uploads, index)
    ensures BlobsSound(after, uploads, index)
  {
    hide Quiet, Handles, StagingKept;
    forall b, key | b in index.objects && key in index.objects[b]
      ensures BlobSound(after, uploads, b, key, index.objects[b][key])
    {
      QuietCarries(before, after, index.objects[b][key].media);
      BlobStays(before, after, uploads, uploads, b, key, index.objects[b][key]);
    }
  }

  /** One bucket's tree is tidy under its label, and shows these entries; the other trees are as they were. */
  ghost predicate Relabelled(before: Fs, after: Fs, slots: Slots, bucket: BucketMeta)
    requires Layout(slots)
  {
    match before
    case Fs(trees, inodes, _) =>
      && bucket.name in after.trees && after.trees == trees[bucket.name := after.trees[bucket.name]]
      && Tidy(after.trees[bucket.name], after.inodes, slots) && inodes <= after.inodes
      && LabelOf(after.trees[bucket.name], after.inodes) == bucket
      && forall m :: m in slots ==> EntryAt(after, bucket.name, slots[m]) == EntryAt(before, bucket.name, slots[m])
  }

  lemma RelabelledTrees(fs: Fs, after: Fs, labels: map<string, BucketMeta>, slots: Slots, bucket: BucketMeta)
    requires Layout(slots) && TreesSound(fs, labels, slots) && Relabelled(fs, after, slots, bucket)
    ensures TreesSound(after, labels[bucket.name := bucket], slots)
    ensures forall b, n :: (b in labels || b == bucket.name) && n in slots ==> EntryAt(after, b, slots[n]) == EntryAt(fs, b, slots[n])
  {
    hide Layout, Labelled, EntryIn, NoStrayFiles, NoStrayDirs, AllShelved, Unshared, StagedMedia, LabelOf;
    PrefixKeepsKinds(fs.inodes, after.inodes);
    var changed := labels[bucket.name := bucket];
    forall b | b in changed
      ensures Tidy(after.trees[b], after.inodes, slots) && LabelOf(after.trees[b], after.inodes) == changed[b]
      ensures forall n :: n in slots ==> EntryAt(after, b, slots[n]) == EntryAt(fs, b, slots[n])
    {
      if b != bucket.name {
        TidyGrows(fs.trees[b], fs.inodes, after.inodes, slots);
      }
    }
  }

  /** A bucket comes, or gets another label: every name keeps its object and its entry. */
  lemma BucketKept(w: World, after: World, slots: Slots, bucket: BucketMeta)
    requires Layout(slots) && Sound(w, slots)
    requires after == w.(index := after.index, store := after.store, labels := w.labels[bucket.name := bucket])
    requires after.index.buckets == w.index.buckets[bucket.name := bucket]
    requires IndexSound(after.index, slots, w.generation) && BlobsSound(w.store, w.uploads, after.index)
    requires OwnersSound(w.uploads, after.index, w.generation)
    requires forall b, n :: Current(after.index, b, n) == if b in w.index.buckets then Current(w.index, b, n) else None
    requires Relabelled(w.store.fs, after.store.fs, slots, bucket)
    requires Quiet(w.store, after.store) && StagingKept(w.store.fs, after.store.fs, None)
    ensures Sound(after, slots)
  {
    hide Layout, TreesSound, Handles, IndexSound, SameInode, EntryAt, Current, BlobsSound, Quiet, StagingKept, Relabelled;
    Parts(w, slots);
    Shape(w, slots);
    QuietKeeps(w.store, after.store);
    QuietBlobs(w.store, after.store, w.uploads, after.index);
    RelabelledTrees(w.store.fs, after.store.fs, w.labels, slots, bucket);
    QuietUploads(w.store, after.store, w.uploads);
    forall b, n | b in after.index.buckets && n in slots
      ensures MirrorAt(after.store, Current(after.index, b, n), EntryAt(after.store.fs, b, slots[n]), Lag(w.behind, b, n))
    {
      if b in w.index.buckets {
        assert MirrorAt(w.store, Current(w.index, b, n), EntryAt(w.store.fs, b, slots[n]), Lag(w.behind, b, n));
        if Current(w.index, b, n).Some? {
          SameInodeStays(w.store, after.store, Current(w.index, b, n).value.media, EntryAt(w.store.fs, b, slots[n]).value.inode);
        }
      } else {
        NoTreeNoEntry(w.store.fs, b, slots[n]);
      }
    }
  }

  lemma NoTreeNoEntry(fs: Fs, b: string, slot: Slot)
    requires b !in fs.trees
    ensures EntryAt(fs, b, slot) == None
  {
  }

  lemma QuietUploads(before: Store, after: Store, uploads: seq<Upload>)
    requires Quiet(before, after) && UploadsSound(before, uploads)
    ensures UploadsSound(after, uploads)
  {
  }

  lemma SoundNewBucket(w: World, slots: Slots, bucket: BucketMeta)
    requires Layout(slots) && Sound(w, slots) && bucket.name !in w.index.buckets && !bucket.softDelete
    ensures var r := TellBucket(w.store, bucket);
            && r.Ok? && Evolves(w.store, r.value)
            && Sound(w.(index := Absorb(w.index, BucketInserted(bucket)), store := r.value,
                        labels := w.labels[bucket.name := bucket]), slots)
  {
    hide Layout, Sound, Tidy, TreesSound, Mirror, Handles, BlobsSound, IndexSound, UploadsSound, TellBucket, Absorb, Current, EntryAt;
    Parts(w, slots);
    Shape(w, slots);
    InsertsBucket(w.store, slots, bucket);
    var index := Absorb(w.index, BucketInserted(bucket));
    var told := TellBucket(w.store, bucket).value;
    PrefixOfMore(w.store.fs.inodes, BucketSidecar(bucket));
    BucketIndex(w.index, slots, w.generation, bucket);
    NewBucketBlobs(w.store, w.uploads, w.index, bucket);
    BucketOwners(w.uploads, w.index, w.generation, BucketInserted(bucket));
    BucketOwners(w.uploads, w.index, w.generation, BucketUpdated(bucket));
    NewBuckets(w.index, bucket);
    forall b, n
      ensures Current(index, b, n) == if b in w.index.buckets then Current(w.index, b, n) else None
    {
      NewBucketCurrent(w.index, bucket, b, n);
      if b !in w.index.buckets {
        NoBucketNoCurrent(w.index, b, n);
      }
    }
    forall m | m in slots
      ensures EntryAt(w.store.fs, bucket.name, slots[m]) == None
    {
      NoTreeNoEntry(w.store.fs, bucket.name, slots[m]);
    }
    BucketKept(w, w.(index := index, store := told, labels := w.labels[bucket.name := bucket]), slots, bucket);
    assert Quiet(w.store, told);
    QuietEvolves(w.store, told);
  }

  lemma NoBucketNoCurrent(index: Index, b: string, n: string)
    requires b !in index.live
    ensures Current(index, b, n) == None
  {
  }

  lemma NewBuckets(index: Index, bucket: BucketMeta)
    ensures Absorb(index, BucketInserted(bucket)).buckets == index.buckets[bucket.name := bucket]
    ensures bucket.name in index.buckets ==> Absorb(index, BucketUpdated(bucket)).buckets == index.buckets[bucket.name := bucket]
  {
  }

  lemma SoundRelabel(w: World, slots: Slots, bucket: BucketMeta)
    requires Layout(slots) && Sound(w, slots) && bucket.name in w.index.buckets && !bucket.softDelete
    ensures var r := TellBucketUpdate(w.store, bucket);
            && r.Ok? && Evolves(w.store, r.value)
            && Sound(w.(index := Absorb(w.index, BucketUpdated(bucket)), store := r.value,
                        labels := w.labels[bucket.name := bucket]), slots)
  {
    hide Layout, Sound, Tidy, TreesSound, Mirror, Handles, BlobsSound, IndexSound, UploadsSound, TellBucketUpdate, Absorb, Current,
         EntryAt;
    Parts(w, slots);
    Shape(w, slots);
    TreeOf(w, slots, bucket.name);
    UpdatesBucket(w.store, slots, bucket);
    var index := Absorb(w.index, BucketUpdated(bucket));
    var told := TellBucketUpdate(w.store, bucket).value;
    PrefixOfMore(w.store.fs.inodes, BucketSidecar(bucket));
    RelabelIndex(w.index, slots, w.generation, bucket);
    NewBucketBlobs(w.store, w.uploads, w.index, bucket);
    BucketOwners(w.uploads, w.index, w.generation, BucketInserted(bucket));
    BucketOwners(w.uploads, w.index, w.generation, BucketUpdated(bucket));
    NewBuckets(w.index, bucket);
    forall b, n
      ensures Current(index, b, n) == if b in w.index.buckets then Current(w.index, b, n) else None
    {
      RelabelledCurrent(w.index, bucket, b, n);
      if b !in w.index.buckets {
        NoBucketNoCurrent(w.index, b, n);
      }
    }
    BucketKept(w, w.(index := index, store := told, labels := w.labels[bucket.name := bucket]), slots, bucket);
    assert Quiet(w.store, told);
    QuietEvolves(w.store, told);
  }

  /** An update of a bucket that raises: the store keeps the label it has. */
  lemma SoundMislabel(w: World, slots: Slots, bucket: BucketMeta)
    requires Layout(slots) && Sound(w, slots) && bucket.name in w.index.buckets && !bucket.softDelete
    ensures Sound(w.(index := Absorb(w.index, BucketUpdated(bucket))), slots)
  {
    hide Layout, Sound, TreesSound, Handles, BlobsSound, IndexSound, UploadsSound, OwnersSound, Absorb, Current, EntryAt, MirrorAt;
    Parts(w, slots);
    Shape(w, slots);
    var index := Absorb(w.index, BucketUpdated(bucket));
    RelabelIndex(w.index, slots, w.generation, bucket);
    NewBucketBlobs(w.store, w.uploads, w.index, bucket);
    BucketOwners(w.uploads, w.index, w.generation, BucketUpdated(bucket));
    NewBuckets(w.index, bucket);
    forall b, n | b in index.buckets && n in slots
      ensures MirrorAt(w.store, Current(index, b, n), EntryAt(w.store.fs, b, slots[n]), Lag(w.behind, b, n))
    {
      RelabelledCurrent(w.index, bucket, b, n);
    }
    assert index.buckets.Keys == w.index.buckets.Keys;
    MislabelledSound(w, w.(index := index), slots);
  }

  lemma MislabelledSound(w: World, after: World, slots: Slots)
    requires Layout(slots) && Sound(w, slots) && after == w.(index := after.index)
    requires after.index.buckets.Keys == w.index.buckets.Keys
    requires IndexSound(after.index, slots, w.generation) && BlobsSound(w.store, w.uploads, after.index)
    requires OwnersSound(w.uploads, after.index, w.generation)
    requires forall b, n :: b in after.index.buckets && n in slots ==>
                              MirrorAt(w.store, Current(after.index, b, n), EntryAt(w.store.fs, b, slots[n]), Lag(w.behind, b, n))
    ensures Sound(after, slots)
  {
    hide Layout, TreesSound, Handles, BlobsSound, IndexSound, UploadsSound, OwnersSound, Current, EntryAt, MirrorAt;
  }

  lemma DropIndex(index: Index, slots: Slots, generation: nat, b: string)
    requires IndexSound(index, slots, generation)
    ensures IndexSound(Absorb(index, BucketDeleted(b)), slots, generation)
  {
  }

  lemma DroppedCurrent(index: Index, b: string, c: string, n: string)
    ensures Current(Absorb(index, BucketDeleted(b)), c, n) == if c == b then None else Current(index, c, n)
  {
  }

  lemma DropQuiet(store: Store, b: string)
    ensures Quiet(store, TellBucketDelete(store, b))
  {
  }

  /** The objects of the other buckets keep their bytes, and their staging names. */
  lemma DropBlobs(store: Store, uploads: seq<Upload>, index: Index, b: string)
    requires Handles(store) && UploadsSound(store, uploads) && BlobsSound(store, uploads, index)
    ensures BlobsSound(TellBucketDelete(store, b), uploads, Absorb(index, BucketDeleted(b)))
  {
    hide Handles;
    var after := TellBucketDelete(store, b);
    DropQuiet(store, b);
    QuietKeeps(store, after);
    forall c, key | c in index.objects && c != b && key in index.objects[c]
      ensures BlobSound(after, uploads, c, key, index.objects[c][key])
    {
      DropBlob(store, uploads, b, c, key, index.objects[c][key]);
    }
  }

  lemma DropBlob(store: Store, uploads: seq<Upload>, b: string, c: string, key: Key, blob: Blob)
    requires UploadsSound(store, uploads) && BlobSound(store, uploads, c, key, blob) && c != b
    requires BytesKept(store, TellBucketDelete(store, b))
    ensures BlobSound(TellBucketDelete(store, b), uploads, c, key, blob)
  {
    hide Measured;
    assert Carried(store, TellBucketDelete(store, b), blob.media);
    BlobStays(store, TellBucketDelete(store, b), uploads, uploads, c, key, blob);
  }

  lemma SoundDropBucket(w: World, after: World, slots: Slots, b: string)
    requires Layout(slots) && Sound(w, slots) && b in w.index.buckets
    requires after == w.(index := Absorb(w.index, BucketDeleted(b)), store := TellBucketDelete(w.store, b),
                         behind := map p | p in w.behind && p.0 != b :: w.behind[p], labels := w.labels - {b})
    ensures Sound(after, slots) && Evolves(w.store, after.store)
  {
    hide Layout, Tidy, LabelOf, Labelled, Handles, BlobsSound, IndexSound, SameInode, EntryIn, Current;
    Parts(w, slots);
    Shape(w, slots);
    DropIndex(w.index, slots, w.generation, b);
    DropQuiet(w.store, b);
    QuietKeeps(w.store, after.store);
    QuietEvolves(w.store, after.store);
    DropBlobs(w.store, w.uploads, w.index, b);
    BucketOwners(w.uploads, w.index, w.generation, BucketDeleted(b));
    forall c, n | c in after.index.buckets && n in slots
      ensures MirrorAt(after.store, Current(after.index, c, n), EntryAt(after.store.fs, c, slots[n]), Lag(after.behind, c, n))
    {
      DroppedCurrent(w.index, b, c, n);
      assert MirrorAt(w.store, Current(w.index, c, n), EntryAt(w.store.fs, c, slots[n]), Lag(w.behind, c, n));
      if Current(w.index, c, n).Some? {
        SameInodeStays(w.store, after.store, Current(w.index, c, n).value.media, EntryAt(w.store.fs, c, slots[n]).value.inode);
      }
    }
  }

  lemma EmptySides(store: Store, slots: Slots, generation: nat, uploads: seq<Upload>)
    requires Layout(slots)
    ensures IndexSound(EMPTY, slots, generation) && BlobsSound(TellClear(store), uploads, EMPTY)
    ensures TreesSound(TellClear(store).fs, map[], slots)
  {
    hide Layout;
  }

  lemma EmptyMirror(w: World, slots: Slots)
    requires w.index == EMPTY
    ensures Mirror(w, slots)
  {
    hide Current, EntryAt;
  }

  lemma ClearQuiet(store: Store)
    ensures Quiet(store, TellClear(store))
  {
  }

  lemma SoundClear(w: World, slots: Slots)
    requires Layout(slots) && Sound(w, slots)
    ensures Sound(w.(index := EMPTY, store := TellClear(w.store), behind := map[], labels := map[]), slots)
    ensures Evolves(w.store, TellClear(w.store))
  {
    hide Layout, Handles, BytesKept, UploadsSound, OwnersSound, IndexSound, BlobsSound, TreesSound, Mirror, Quiet, TellClear;
    Parts(w, slots);
    var after := TellClear(w.store);
    ClearQuiet(w.store);
    QuietKeeps(w.store, after);
    QuietEvolves(w.store, after);
    QuietUploads(w.store, after, w.uploads);
    EmptySides(w.store, slots, w.generation, w.uploads);
    BucketOwners(w.uploads, w.index, w.generation, Cleared);
    EmptyMirror(w.(index := EMPTY, store := after, behind := map[], labels := map[]), slots);
  }
}
