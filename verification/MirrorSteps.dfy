/** Every step of a world keeps what holds in it. */
module MirrorSteps {

  import opened Bytes
  import opened Database
  import opened FileStore
  import opened Mirroring
  import opened Posix
  import opened Resources
  import opened Shelves
  import opened StoreSteps
  import opened Worlds
  import opened Wrappers

  // ---- Trees and the mirror, away from the name that changes ----

  lemma OtherTrees(fs: Fs, after: Fs, slots: Slots, b: string, n: string, c: string)
    requires Layout(slots) && Stepped(fs, after, slots, b, n) && c in fs.trees && c != b
    requires Tidy(fs.trees[c], fs.inodes, slots)
    ensures c in after.trees && Tidy(after.trees[c], after.inodes, slots)
    ensures LabelOf(after.trees[c], after.inodes) == LabelOf(fs.trees[c], fs.inodes)
    ensures forall m :: m in slots ==> EntryAt(after, c, slots[m]) == EntryAt(fs, c, slots[m])
  {
    PrefixKeepsKinds(fs.inodes, after.inodes);
    TidyGrows(fs.trees[c], fs.inodes, after.inodes, slots);
  }

  lemma TreesStep(fs: Fs, after: Fs, labels: map<string, BucketMeta>, slots: Slots, b: string, n: string)
    requires Layout(slots) && TreesSound(fs, labels, slots) && Stepped(fs, after, slots, b, n)
    ensures TreesSound(after, labels, slots)
  {
    forall c | c in labels
      ensures Tidy(after.trees[c], after.inodes, slots) && LabelOf(after.trees[c], after.inodes) == labels[c]
    {
      if c != b {
        OtherTrees(fs, after, slots, b, n, c);
      }
    }
  }

  lemma EntryStays(fs: Fs, after: Fs, labels: map<string, BucketMeta>, slots: Slots, b: string, n: string, c: string, m: string)
    requires Layout(slots) && TreesSound(fs, labels, slots) && Stepped(fs, after, slots, b, n)
    requires c in labels && m in slots && (c, m) != (b, n)
    ensures EntryAt(after, c, slots[m]) == EntryAt(fs, c, slots[m])
  {
    if c != b {
      OtherTrees(fs, after, slots, b, n, c);
    }
  }

  lemma SameInodeStays(before: Store, after: Store, media: MediaRef, inode: Inode)
    requires BytesKept(before, after) && SameInode(before, media, inode)
    ensures SameInode(after, media, inode)
  {
    InodeStays(before.fs.inodes, after.fs.inodes, inode);
  }

  /** The index, seen as one live object per name, changed for one name only. */
  ghost predicate OneName(index: Index, after: Index, b: string, n: string) {
    match index
    case Index(buckets, _, _, _) =>
      && after.buckets == buckets
      && forall c, m :: c in buckets && (c, m) != (b, n) ==> Current(after, c, m) == Current(index, c, m)
  }

  ghost predicate OneBehind(before: map<(string, string), ObjectMeta>, after: map<(string, string), ObjectMeta>, b: string, n: string) {
    forall c, m :: (c, m) != (b, n) ==> Lag(after, c, m) == Lag(before, c, m)
  }

  /** A step on one name keeps the mirror, if it does so for that name. */
  lemma MirrorStep(w: World, after: World, slots: Slots, b: string, n: string)
    requires Layout(slots) && n in slots && Mirror(w, slots) && TreesSound(w.store.fs, w.labels, slots) && LabelsSound(w)
    requires Stepped(w.store.fs, after.store.fs, slots, b, n) && BytesKept(w.store, after.store)
    requires OneName(w.index, after.index, b, n) && OneBehind(w.behind, after.behind, b, n)
    requires MirrorAt(after.store, Current(after.index, b, n), EntryAt(after.store.fs, b, slots[n]), Lag(after.behind, b, n))
    ensures Mirror(after, slots)
  {
    forall c, m | c in after.index.buckets && m in slots
      ensures MirrorAt(after.store, Current(after.index, c, m), EntryAt(after.store.fs, c, slots[m]), Lag(after.behind, c, m))
    {
      if (c, m) != (b, n) {
        EntryStays(w.store.fs, after.store.fs, w.labels, slots, b, n, c, m);
        var current := Current(w.index, c, m);
        if current.Some? {
          SameInodeStays(w.store, after.store, current.value.media, EntryAt(w.store.fs, c, slots[m]).value.inode);
        }
      }
    }
  }

  // ---- The index, one notification at a time ----

  lemma CurrentAfterInsert(index: Index, b: string, blob: Blob, c: string, m: string)
    requires b in index.objects && b in index.live
    ensures Current(Absorb(index, ObjectInserted(b, blob)), c, m) ==
            if (c, m) == (b, blob.meta.name) then Some(blob) else Current(index, c, m)
  {
  }

  lemma CurrentAfterUpdate(index: Index, b: string, blob: Blob, c: string, m: string)
    requires b in index.objects && b in index.live
    requires LiveGeneration(index, b, blob.meta.name) == Some(blob.meta.generation)
    ensures Current(Absorb(index, ObjectUpdated(b, blob)), c, m) ==
            if (c, m) == (b, blob.meta.name) then Some(blob) else Current(index, c, m)
  {
  }

  lemma CurrentAfterDelete(index: Index, b: string, key: Key, c: string, m: string)
    requires b in index.objects && b in index.live
    requires LiveGeneration(index, b, key.name) == Some(key.generation)
    ensures Current(Absorb(index, ObjectDeleted(b, key)), c, m) ==
            if (c, m) == (b, key.name) then None else Current(index, c, m)
  {
  }

  lemma PutLookup<K, V>(m: map<string, map<K, V>>, outer: string, key: K, value: V, c: string, k: K)
    requires outer in m && c in m
    ensures var after := Put(m, outer, key, value);
            && c in after && (k in after[c] <==> k in m[c] || (c == outer && k == key))
            && (k in after[c] ==> after[c][k] == if c == outer && k == key then value else m[c][k])
  {
  }

  lemma PutObjects(index: Index, objects: map<string, map<Key, Blob>>, slots: Slots, generation: nat, b: string, blob: Blob)
    requires IndexSound(index, slots, generation) && b in index.objects && blob.meta.name in slots
    requires objects == Put(index.objects, b, KeyOf(blob), blob) && 1 <= blob.meta.generation
    ensures forall c, key :: c in objects && key in objects[c] ==>
              && KeyOf(objects[c][key]) == key && key.name in slots
              && 1 <= key.generation <= Max(generation, blob.meta.generation)
    ensures forall c, key :: c in index.objects && key in index.objects[c] ==> c in objects && key in objects[c]
  {
    hide Put;
    forall c, key | c in objects && key in objects[c]
      ensures if (c, key) == (b, KeyOf(blob)) then objects[c][key] == blob
              else key in index.objects[c] && objects[c][key] == index.objects[c][key]
    {
      PutLookup(index.objects, b, KeyOf(blob), blob, c, key);
    }
    forall c, key | c in index.objects && key in index.objects[c]
      ensures c in objects && key in objects[c]
    {
      PutLookup(index.objects, b, KeyOf(blob), blob, c, key);
    }
  }

  lemma KeysAfterInsert(index: Index, slots: Slots, generation: nat, b: string, blob: Blob)
    requires IndexSound(index, slots, generation) && b in index.buckets
    requires blob.meta.name in slots && blob.meta.generation == generation + 1
    ensures IndexSound(Absorb(index, ObjectInserted(b, blob)), slots, generation + 1)
  {
    hide Absorb;
    var objects, live := Put(index.objects, b, KeyOf(blob), blob), Put(index.live, b, blob.meta.name, blob.meta.generation);
    InsertedIndex(index, b, blob);
    PutObjects(index, objects, slots, generation, b, blob);
    PutLive(index, slots, generation, b, blob, objects, live);
  }

  lemma InsertedIndex(index: Index, b: string, blob: Blob)
    requires b in index.objects && b in index.live
    ensures Absorb(index, ObjectInserted(b, blob)) ==
            index.(objects := Put(index.objects, b, KeyOf(blob), blob),
                   live := Put(index.live, b, blob.meta.name, blob.meta.generation))
  {
  }

  lemma PutLive(index: Index, slots: Slots, generation: nat, b: string, blob: Blob, objects: map<string, map<Key, Blob>>,
                live: map<string, map<string, nat>>)
    requires IndexSound(index, slots, generation) && b in index.buckets
    requires objects == Put(index.objects, b, KeyOf(blob), blob)
    requires live == Put(index.live, b, blob.meta.name, blob.meta.generation)
    ensures forall c, n :: c in live && n in live[c] ==> c in objects && Key(n, live[c][n]) in objects[c]
  {
    hide Put;
    PutLookup(index.objects, b, KeyOf(blob), blob, b, KeyOf(blob));
    forall c, n | c in live && n in live[c]
      ensures c in objects && Key(n, live[c][n]) in objects[c]
    {
      PutLookup(index.live, b, blob.meta.name, blob.meta.generation, c, n);
      PutLookup(index.objects, b, KeyOf(blob), blob, c, Key(n, live[c][n]));
    }
  }

  lemma KeysAfterUpdate(index: Index, slots: Slots, generation: nat, b: string, blob: Blob)
    requires IndexSound(index, slots, generation) && b in index.buckets && KeyOf(blob) in index.objects[b]
    ensures IndexSound(Absorb(index, ObjectUpdated(b, blob)), slots, generation)
  {
    PutObjects(index, Put(index.objects, b, KeyOf(blob), blob), slots, generation, b, blob);
  }

  lemma KeysAfterDelete(index: Index, slots: Slots, generation: nat, b: string, key: Key)
    requires IndexSound(index, slots, generation) && b in index.buckets
    requires LiveGeneration(index, b, key.name) == Some(key.generation)
    ensures IndexSound(Absorb(index, ObjectDeleted(b, key)), slots, generation)
  {
    hide Absorb;
    var objects, live := Drop(index.objects, b, key), Drop(index.live, b, key.name);
    DeletedIndex(index, b, key);
    KeysAfterDrop(index, slots, generation, b, key, objects, live);
  }

  lemma DeletedIndex(index: Index, b: string, key: Key)
    requires b in index.objects && LiveGeneration(index, b, key.name) == Some(key.generation)
    ensures Absorb(index, ObjectDeleted(b, key)) ==
            index.(objects := Drop(index.objects, b, key), live := Drop(index.live, b, key.name))
  {
  }

  lemma KeysAfterDrop(index: Index, slots: Slots, generation: nat, b: string, key: Key, objects: map<string, map<Key, Blob>>,
                      live: map<string, map<string, nat>>)
    requires IndexSound(index, slots, generation) && b in index.buckets
    requires objects == Drop(index.objects, b, key) && live == Drop(index.live, b, key.name)
    requires key.name in index.live[b] && index.live[b][key.name] == key.generation
    ensures IndexSound(index.(objects := objects, live := live), slots, generation)
  {
    hide Drop;
    assert index.objects.Keys == index.live.Keys == index.buckets.Keys;
    forall c, n | c in live && n in live[c]
      ensures Key(n, live[c][n]) in objects[c]
    {
      DropLookup(index.live, b, key.name, c, n);
      DropLookup(index.objects, b, key, c, Key(n, live[c][n]));
    }
    forall c, k | c in objects && k in objects[c]
      ensures k in index.objects[c] && objects[c][k] == index.objects[c][k]
    {
      DropLookup(index.objects, b, key, c, k);
    }
    FewerKeys(index, index.(objects := objects, live := live), slots, generation);
  }

  lemma FewerKeys(index: Index, after: Index, slots: Slots, generation: nat)
    requires IndexSound(index, slots, generation)
    requires after.buckets == index.buckets && after.objects.Keys == after.live.Keys == index.buckets.Keys
    requires forall c, k :: c in after.objects && k in after.objects[c] ==>
                              k in index.objects[c] && after.objects[c][k] == index.objects[c][k]
    requires forall c, n :: c in after.live && n in after.live[c] ==> Key(n, after.live[c][n]) in after.objects[c]
    ensures IndexSound(after, slots, generation)
  {
  }

  lemma DropLookup<K, V>(m: map<string, map<K, V>>, outer: string, key: K, c: string, k: K)
    requires outer in m && c in m
    ensures var after := Drop(m, outer, key);
            && c in after && (k in after[c] <==> k in m[c] && !(c == outer && k == key))
            && (k in after[c] ==> after[c][k] == m[c][k])
  {
  }

  lemma IndexInsert(index: Index, slots: Slots, generation: nat, b: string, blob: Blob)
    requires IndexSound(index, slots, generation) && b in index.buckets
    requires blob.meta.name in slots && blob.meta.generation == generation + 1
    ensures var after := Absorb(index, ObjectInserted(b, blob));
            && IndexSound(after, slots, generation + 1) && OneName(index, after, b, blob.meta.name)
            && Current(after, b, blob.meta.name) == Some(blob)
  {
    KeysAfterInsert(index, slots, generation, b, blob);
    InsertOneName(index, b, blob);
  }

  lemma InsertOneName(index: Index, b: string, blob: Blob)
    requires b in index.objects && b in index.live
    ensures var after := Absorb(index, ObjectInserted(b, blob));
            OneName(index, after, b, blob.meta.name) && Current(after, b, blob.meta.name) == Some(blob)
  {
    forall c, m { CurrentAfterInsert(index, b, blob, c, m); }
  }

  /** The key of the live object. */
  lemma LiveKey(index: Index, slots: Slots, generation: nat, b: string, n: string)
    requires IndexSound(index, slots, generation) && b in index.buckets
    ensures var current := Current(index, b, n);
            && (current.Some? <==> n in index.live[b])
            && (current.Some? ==> KeyOf(current.value) == Key(n, index.live[b][n]) && KeyOf(current.value) in index.objects[b]
                                  && index.objects[b][KeyOf(current.value)] == current.value && n in slots)
  {
  }

  lemma IndexUpdate(index: Index, slots: Slots, generation: nat, b: string, blob: Blob)
    requires IndexSound(index, slots, generation) && b in index.buckets
    requires Current(index, b, blob.meta.name).Some?
    requires KeyOf(blob) == KeyOf(Current(index, b, blob.meta.name).value)
    ensures var after := Absorb(index, ObjectUpdated(b, blob));
            && IndexSound(after, slots, generation) && OneName(index, after, b, blob.meta.name)
            && Current(after, b, blob.meta.name) == Some(blob)
  {
    LiveKey(index, slots, generation, b, blob.meta.name);
    KeysAfterUpdate(index, slots, generation, b, blob);
    UpdateOneName(index, b, blob);
  }

  lemma UpdateOneName(index: Index, b: string, blob: Blob)
    requires b in index.objects && b in index.live
    requires LiveGeneration(index, b, blob.meta.name) == Some(blob.meta.generation)
    ensures var after := Absorb(index, ObjectUpdated(b, blob));
            OneName(index, after, b, blob.meta.name) && Current(after, b, blob.meta.name) == Some(blob)
  {
    forall c, m { CurrentAfterUpdate(index, b, blob, c, m); }
  }

  lemma IndexDelete(index: Index, slots: Slots, generation: nat, b: string, key: Key)
    requires IndexSound(index, slots, generation) && b in index.buckets
    requires LiveGeneration(index, b, key.name) == Some(key.generation)
    ensures var after := Absorb(index, ObjectDeleted(b, key));
            && IndexSound(after, slots, generation) && OneName(index, after, b, key.name)
            && Current(after, b, key.name) == None
  {
    KeysAfterDelete(index, slots, generation, b, key);
    DeleteOneName(index, b, key);
  }

  lemma DeleteOneName(index: Index, b: string, key: Key)
    requires b in index.objects && b in index.live
    requires LiveGeneration(index, b, key.name) == Some(key.generation)
    ensures var after := Absorb(index, ObjectDeleted(b, key));
            OneName(index, after, b, key.name) && Current(after, b, key.name) == None
  {
    forall c, m { CurrentAfterDelete(index, b, key, c, m); }
  }

  // ---- Objects and their media ----

  /** What an object relies on stays: its bytes, and its staging name if it is still written. */
  ghost predicate Carried(before: Store, after: Store, media: MediaRef) {
    && BytesBehind(after, media) == BytesBehind(before, media)
    && (StagedNow(before, media) ==> StagedNow(after, media)) && (SettledNow(before, media) ==> SettledNow(after, media))
  }

  lemma QuietCarries(before: Store, after: Store, media: MediaRef)
    requires Quiet(before, after) && Handles(before) && StagingKept(before.fs, after.fs, None)
    ensures Carried(before, after, media)
  {
    QuietKeeps(before, after);
    if StagedNow(before, media) {
      assert HandleSound(before.fs, before.medias[media.id]);
    }
  }

  lemma SettlesCarries(before: Store, after: Store, id: nat, media: MediaRef)
    requires Settles(before, after, id) && Handles(before) && media != OnDisk(id)
    ensures Carried(before, after, media)
  {
    SettlesKeeps(before, after, id);
    if StagedNow(before, media) {
      var k := media.id;
      assert HandleSound(before.fs, before.medias[k]);
      assert Apart(before.fs, before.medias[if k < id then k else id], before.medias[if k < id then id else k]);
    }
  }

  /** Uploads that objects point to are as they were. */
  ghost predicate WritersKept(uploads: seq<Upload>, after: seq<Upload>, media: MediaRef) {
    media.OnDisk? && media.id < |uploads| ==> media.id < |after| && after[media.id] == uploads[media.id]
  }

  lemma BlobStays(before: Store, after: Store, uploads: seq<Upload>, moved: seq<Upload>, b: string, key: Key, blob: Blob)
    requires BlobSound(before, uploads, b, key, blob)
    requires Carried(before, after, blob.media) && WritersKept(uploads, moved, blob.media)
    ensures BlobSound(after, moved, b, key, blob)
  {
  }

  /** Every object but one keeps what it relies on. */
  ghost predicate AllCarried(before: Store, after: Store, uploads: seq<Upload>, moved: seq<Upload>, index: Index, b: string, key: Key) {
    match index
    case Index(_, objects, _, _) =>
      forall c, k :: c in objects && k in objects[c] && (c, k) != (b, key) ==>
                       Carried(before, after, objects[c][k].media) && WritersKept(uploads, moved, objects[c][k].media)
  }

  /** Only uploads that no object points to yet move on, but perhaps the one of this object. */
  ghost predicate UploadsKept(uploads: seq<Upload>, moved: seq<Upload>, b: string, key: Key) {
    && |uploads| <= |moved|
    && forall k :: 0 <= k < |uploads| ==>
                     moved[k] == uploads[k] || uploads[k].phase == Staged || (uploads[k].bucket == b && uploads[k].key == key)
  }

  lemma WriterKept(uploads: seq<Upload>, moved: seq<Upload>, b: string, key: Key, c: string, k: Key, blob: Blob)
    requires UploadsKept(uploads, moved, b, key) && WriterSound(uploads, c, k, blob) && (c, k) != (b, key)
    ensures WritersKept(uploads, moved, blob.media)
  {
  }

  lemma QuietAll(before: Store, after: Store, uploads: seq<Upload>, moved: seq<Upload>, index: Index, b: string, key: Key)
    requires Quiet(before, after) && Handles(before) && StagingKept(before.fs, after.fs, None)
    requires BlobsSound(before, uploads, index) && UploadsKept(uploads, moved, b, key)
    ensures AllCarried(before, after, uploads, moved, index, b, key)
  {
    forall c, k | c in index.objects && k in index.objects[c] && (c, k) != (b, key)
      ensures Carried(before, after, index.objects[c][k].media) && WritersKept(uploads, moved, index.objects[c][k].media)
    {
      var blob := index.objects[c][k];
      assert BlobSound(before, uploads, c, k, blob);
      QuietCarries(before, after, blob.media);
      WriterKept(uploads, moved, b, key, c, k, blob);
    }
  }

  lemma SettlesAll(before: Store, after: Store, id: nat, uploads: seq<Upload>, moved: seq<Upload>, index: Index, b: string, key: Key)
    requires Settles(before, after, id) && Handles(before) && id < |uploads|
    requires BlobsSound(before, uploads, index) && UploadsKept(uploads, moved, b, key)
    requires uploads[id].phase == Staged || (uploads[id].bucket == b && uploads[id].key == key)
    ensures AllCarried(before, after, uploads, moved, index, b, key)
  {
    forall c, k | c in index.objects && k in index.objects[c] && (c, k) != (b, key)
      ensures Carried(before, after, index.objects[c][k].media) && WritersKept(uploads, moved, index.objects[c][k].media)
    {
      var blob := index.objects[c][k];
      assert BlobSound(before, uploads, c, k, blob);
      SettlesCarries(before, after, id, blob.media);
      WriterKept(uploads, moved, b, key, c, k, blob);
    }
  }

  /** After an insert or an update the objects are those there were, and the one that changed. */
  ghost predicate OneObject(index: Index, after: Index, b: string, key: Key) {
    match index
    case Index(_, objects, _, _) =>
      forall c, k :: c in after.objects && k in after.objects[c] && (c, k) != (b, key) ==>
                       c in objects && k in objects[c] && after.objects[c][k] == objects[c][k]
  }

  lemma BlobsStep(before: Store, after: Store, uploads: seq<Upload>, moved: seq<Upload>, index: Index, changed: Index,
                  b: string, key: Key)
    requires BlobsSound(before, uploads, index) && AllCarried(before, after, uploads, moved, index, b, key)
    requires OneObject(index, changed, b, key)
    requires b in changed.objects && key in changed.objects[b] ==> BlobSound(after, moved, b, key, changed.objects[b][key])
    ensures BlobsSound(after, moved, changed)
  {
    forall c, k | c in changed.objects && k in changed.objects[c]
      ensures BlobSound(after, moved, c, k, changed.objects[c][k])
    {
      if (c, k) != (b, key) {
        BlobStays(before, after, uploads, moved, c, k, index.objects[c][k]);
      }
    }
  }

  /** Attached uploads after a step on one object: those there were, and perhaps that object's own. */
  lemma OwnersStep(uploads: seq<Upload>, moved: seq<Upload>, index: Index, changed: Index, before: nat, generation: nat,
                   b: string, key: Key)
    requires OwnersSound(uploads, index, before) && before <= generation && |uploads| <= |moved|
    requires OneObject(index, changed, b, key)
    requires forall id :: 0 <= id < |moved| && moved[id].phase == Attached ==>
                            if moved[id].bucket == b && moved[id].key == key then
                              && key.generation <= generation
                              && (b in changed.objects && key in changed.objects[b] ==>
                                    changed.objects[b][key].media == OnDisk(id) && changed.objects[b][key].upload)
                            else id < |uploads| && moved[id] == uploads[id]
    ensures OwnersSound(moved, changed, generation)
  {
  }

  /** A step on one name is sound, if it is so for that name and for its object. */
  lemma ObjectStep(w: World, after: World, slots: Slots, b: string, key: Key)
    requires Layout(slots) && Sound(w, slots) && key.name in slots && b in w.index.buckets
    requires Stepped(w.store.fs, after.store.fs, slots, b, key.name)
    requires Handles(after.store) && BytesKept(w.store, after.store) && UploadsSound(after.store, after.uploads)
    requires AllCarried(w.store, after.store, w.uploads, after.uploads, w.index, b, key)
    requires OwnersSound(after.uploads, after.index, after.generation)
    requires IndexSound(after.index, slots, after.generation)
    requires OneName(w.index, after.index, b, key.name) && OneObject(w.index, after.index, b, key)
    requires OneBehind(w.behind, after.behind, b, key.name) && after.labels == w.labels
    requires key in after.index.objects[b] ==> BlobSound(after.store, after.uploads, b, key, after.index.objects[b][key])
    requires MirrorAt(after.store, Current(after.index, b, key.name), EntryAt(after.store.fs, b, slots[key.name]),
                      Lag(after.behind, b, key.name))
    ensures Sound(after, slots)
  {
    BlobsStep(w.store, after.store, w.uploads, after.uploads, w.index, after.index, b, key);
    TreesStep(w.store.fs, after.store.fs, w.labels, slots, b, key.name);
    MirrorStep(w, after, slots, b, key.name);
  }
}
