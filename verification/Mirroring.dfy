/** What holds in every reachable world, and which parts of the state it is about. */
module Mirroring {

  import opened Bytes
  import opened Checksums
  import opened Database
  import opened FileMedia
  import opened FileStore
  import opened Posix
  import opened Resources
  import opened Shelves
  import opened StoreSteps
  import opened Worlds
  import opened Wrappers

  // ---- The index ----

  ghost predicate IndexSound(index: Index, slots: Slots, generation: nat) {
    match index
    case Index(buckets, objects, live, _) =>
      && buckets.Keys == objects.Keys == live.Keys
      && (forall b :: b in buckets ==> buckets[b].name == b && !buckets[b].softDelete)
      && (forall b, key :: b in objects && key in objects[b] ==>
            KeyOf(objects[b][key]) == key && key.name in slots && 1 <= key.generation <= generation)
      && (forall b, n :: b in live && n in live[b] ==> Key(n, live[b][n]) in objects[b])
  }

  // ---- The media ----

  /** No descriptor, inode or staging name in common. */
  ghost predicate Apart(fs: Fs, g: Handle, h: Handle) {
    && g.readFd != h.readFd && InodeOf(fs, g.readFd) != InodeOf(fs, h.readFd)
    && (g.staging.Some? ==> g.staging.value.appendFd != h.readFd)
    && (h.staging.Some? ==> h.staging.value.appendFd != g.readFd)
    && (g.staging.Some? && h.staging.Some? ==>
          g.staging.value.appendFd != h.staging.value.appendFd && g.staging.value.place != h.staging.value.place)
  }

  /** The media is readable, and its staging name, if it is still there, leads to it. */
  ghost predicate HandleSound(fs: Fs, h: Handle) {
    && WellFormed(fs, h)
    && match h.staging
       case None => true
       case Some(Staging(place, _)) =>
         IsStaging(place.path) && (FileAt(fs, place) == None || FileAt(fs, place) == InodeOf(fs, h.readFd))
  }

  ghost predicate Handles(store: Store) {
    match store
    case Store(fs, medias) =>
      && (forall k :: 0 <= k < |medias| ==> HandleSound(fs, medias[k]))
      && (forall j, k :: 0 <= j < k < |medias| ==> Apart(fs, medias[j], medias[k]))
  }

  /** The inode of a media, and the bytes on it. */
  function MediaInode(store: Store, k: nat): Option<Inode> {
    if k < |store.medias| then InodeOf(store.fs, store.medias[k].readFd) else None
  }

  function MediaBytes(store: Store, k: nat): Bytes {
    var i := MediaInode(store, k);
    if i.Some? && i.value < |store.fs.inodes| && store.fs.inodes[i.value].Media? then store.fs.inodes[i.value].bytes else []
  }

  function BytesBehind(store: Store, media: MediaRef): Bytes {
    match media
    case InMemory(bytes) => bytes
    case OnDisk(k) => MediaBytes(store, k)
  }

  // ---- Uploads and the objects they write ----

  ghost predicate UploadsSound(store: Store, uploads: seq<Upload>) {
    match store
    case Store(_, medias) =>
      && |uploads| == |medias|
      && forall k :: 0 <= k < |uploads| ==>
                       && (uploads[k].phase != Done ==> medias[k].staging.Some?)
                       && (medias[k].staging.Some? ==> medias[k].staging.value.place.bucket == uploads[k].bucket)
  }

  /** An object has a writer exactly while it is not finalized, and then the writer has a handle. */
  ghost predicate WriterSound(uploads: seq<Upload>, b: string, key: Key, blob: Blob) {
    && (blob.upload <==> !blob.meta.finalized)
    && (if blob.upload then blob.uploadGen >= 1 else blob.uploadGen == 0)
    && match blob.media
       case InMemory(_) => !blob.upload
       case OnDisk(k) => k < |uploads| && uploads[k] == Upload(b, key, if blob.upload then Attached else Done)
  }

  /** Metadata that tells the truth about the bytes, or that an appendable upload has left behind. */
  ghost predicate Measured(meta: ObjectMeta, bytes: Bytes) {
    || (meta.size == |bytes| && meta.crc == Crc32c(bytes, 0) && meta.md5 == Md5(bytes))
    || (meta.md5 == Md5([]) && meta.size <= |bytes| && (meta.size == 0 ==> meta.crc == 0))
  }

  ghost predicate BlobSound(store: Store, uploads: seq<Upload>, b: string, key: Key, blob: Blob) {
    && WriterSound(uploads, b, key, blob)
    && Measured(blob.meta, BytesBehind(store, blob.media))
    && if blob.upload then blob.meta.md5 == Md5([]) && StagedNow(store, blob.media) else SettledNow(store, blob.media)
  }

  /** The bytes are never written again. */
  ghost predicate SettledNow(store: Store, media: MediaRef) {
    match media
    case InMemory(_) => true
    case OnDisk(k) => k < |store.medias| && store.medias[k].staging.None?
  }

  /** The media is staged, and its staging name is still there. */
  ghost predicate StagedNow(store: Store, media: MediaRef) {
    match media
    case InMemory(_) => false
    case OnDisk(k) =>
      && k < |store.medias| && store.medias[k].staging.Some? && MediaInode(store, k).Some?
      && FileAt(store.fs, store.medias[k].staging.value.place) == MediaInode(store, k)
  }

  ghost predicate BlobsSound(store: Store, uploads: seq<Upload>, index: Index) {
    match index
    case Index(_, objects, _, _) =>
      forall b, key :: b in objects && key in objects[b] ==> BlobSound(store, uploads, b, key, objects[b][key])
  }

  /** An attached upload is the writer of the object under its key, as long as that is in the index. */
  ghost predicate OwnersSound(uploads: seq<Upload>, index: Index, generation: nat) {
    match index
    case Index(_, objects, _, _) =>
      forall id :: 0 <= id < |uploads| && uploads[id].phase == Attached ==>
                     var Upload(b, key, _) := uploads[id];
                     && key.generation <= generation
                     && (b in objects && key in objects[b] ==> objects[b][key].media == OnDisk(id) && objects[b][key].upload)
  }

  // ---- The mirror ----

  /** Tidy trees, each with the label that the store was last told. */
  ghost predicate TreesSound(fs: Fs, labels: map<string, BucketMeta>, slots: Slots)
    requires Layout(slots)
  {
    match fs
    case Fs(trees, inodes, _) =>
      && trees.Keys == labels.Keys
      && forall b :: b in labels ==> Tidy(trees[b], inodes, slots) && LabelOf(trees[b], inodes) == labels[b]
  }

  ghost predicate LabelsSound(w: World) {
    match w
    case World(index, _, _, _, _, labels) =>
      index.buckets.Keys == labels.Keys && forall b :: b in labels ==> labels[b].name == b
  }

  /** The inode under an object's name is the one its bytes are on. */
  ghost predicate SameInode(store: Store, media: MediaRef, inode: Inode) {
    && inode < |store.fs.inodes|
    && match media
       case InMemory(bytes) =>
         store.fs.inodes[inode] == Content.Media(bytes) && forall k :: 0 <= k < |store.medias| ==> MediaInode(store, k) != Some(inode)
       case OnDisk(k) => MediaInode(store, k) == Some(inode)
  }

  /** One name: a live object has both its files, over its own bytes; the metadata is its own or what the store was last told. */
  ghost predicate MirrorAt(store: Store, current: Option<Blob>, entry: Option<Entry>, lag: Option<ObjectMeta>) {
    match current
    case None => entry == None
    case Some(blob) =>
      && entry.Some? && SameInode(store, blob.media, entry.value.inode)
      && entry.value.meta == if lag.Some? then lag.value else blob.meta
  }

  ghost predicate Mirror(w: World, slots: Slots) {
    match w
    case World(index, store, _, _, behind, _) =>
      forall b, n :: b in index.buckets && n in slots ==>
                       MirrorAt(store, Current(index, b, n), EntryAt(store.fs, b, slots[n]), Lag(behind, b, n))
  }

  ghost predicate Sound(w: World, slots: Slots)
    requires Layout(slots)
  {
    match w
    case World(index, store, uploads, generation, _, labels) =>
      && IndexSound(index, slots, generation)
      && Handles(store) && UploadsSound(store, uploads) && BlobsSound(store, uploads, index)
      && OwnersSound(uploads, index, generation)
      && TreesSound(store.fs, labels, slots) && LabelsSound(w) && Mirror(w, slots)
  }

  // ---- Effects on media ----

  /** No staging name comes to lead anywhere else. */
  ghost predicate StagingOnlyGoes(before: Fs, after: Fs) {
    match before
    case Fs(_, _, _) =>
      forall place: Place :: IsStaging(place.path) ==> FileAt(after, place) == FileAt(before, place) || FileAt(after, place) == None
  }

  /** Nothing happens to any media, but perhaps to its staging name. */
  ghost predicate Quiet(before: Store, after: Store) {
    match before
    case Store(fs, medias) =>
      && after.medias == medias && after.fs.descriptors == fs.descriptors && fs.inodes <= after.fs.inodes
      && StagingOnlyGoes(fs, after.fs)
  }

  /** One media stops growing, and its staging name goes. */
  ghost predicate Settles(before: Store, after: Store, id: nat) {
    match before
    case Store(fs, medias) =>
      && id < |medias| && medias[id].staging.Some?
      && after.medias == medias[id := Sealed(medias[id])]
      && after.fs.descriptors == Close(fs, medias[id].staging.value.appendFd).descriptors
      && fs.inodes <= after.fs.inodes
      && StagingKept(fs, after.fs, Some(medias[id].staging.value.place))
      && FileAt(after.fs, medias[id].staging.value.place) == None
  }

  /** One media stops growing. */
  ghost predicate Ends(before: Store, after: Store, id: nat) {
    match before
    case Store(fs, medias) =>
      && id < |medias| && medias[id].staging.Some?
      && after.medias == medias[id := Sealed(medias[id])]
      && after.fs.descriptors == Close(fs, medias[id].staging.value.appendFd).descriptors
      && fs.inodes <= after.fs.inodes && StagingOnlyGoes(fs, after.fs)
  }

  lemma SettlesEnds(before: Store, after: Store, id: nat)
    requires Settles(before, after, id)
    ensures Ends(before, after, id)
  {
    forall place: Place | IsStaging(place.path)
      ensures FileAt(after.fs, place) == FileAt(before.fs, place) || FileAt(after.fs, place) == None
    {
      if place != before.medias[id].staging.value.place {
        assert StagingKept(before.fs, after.fs, Some(before.medias[id].staging.value.place));
      }
    }
  }

  /** Media, as readers see them: the same inodes, the same bytes, and every old inode as it was. */
  ghost predicate BytesKept(before: Store, after: Store) {
    match before
    case Store(fs, medias) =>
      && |after.medias| == |medias|
      && (forall k :: 0 <= k < |medias| ==> MediaInode(after, k) == MediaInode(before, k) && MediaBytes(after, k) == MediaBytes(before, k))
      && fs.inodes <= after.fs.inodes
  }

  lemma InodeStays(inodes: seq<Content>, after: seq<Content>, i: Inode)
    requires inodes <= after && i < |inodes|
    ensures after[i] == inodes[i]
  {
    assert after[..|inodes|][i] == after[i];
  }

  lemma QuietHandle(before: Store, after: Store, k: nat)
    requires Quiet(before, after) && k < |before.medias| && HandleSound(before.fs, before.medias[k])
    ensures HandleSound(after.fs, before.medias[k])
    ensures MediaInode(after, k) == MediaInode(before, k) && MediaBytes(after, k) == MediaBytes(before, k)
  {
    InodeStays(before.fs.inodes, after.fs.inodes, MediaInode(before, k).value);
    Unmoved(before.fs, after.fs, before.medias[k]);
  }

  lemma QuietKeeps(before: Store, after: Store)
    requires Quiet(before, after) && Handles(before)
    ensures Handles(after) && BytesKept(before, after)
  {
    forall k | 0 <= k < |before.medias|
      ensures HandleSound(after.fs, before.medias[k])
      ensures MediaInode(after, k) == MediaInode(before, k) && MediaBytes(after, k) == MediaBytes(before, k)
    {
      QuietHandle(before, after, k);
    }
    forall j, k | 0 <= j < k < |before.medias|
      ensures Apart(after.fs, before.medias[j], before.medias[k])
    {
      assert Apart(before.fs, before.medias[j], before.medias[k]);
    }
  }

  lemma EndedHandle(before: Store, after: Store, id: nat, k: nat)
    requires Ends(before, after, id) && Handles(before) && k < |before.medias|
    ensures HandleSound(after.fs, after.medias[k])
    ensures MediaInode(after, k) == MediaInode(before, k) && MediaBytes(after, k) == MediaBytes(before, k)
  {
    InodeStays(before.fs.inodes, after.fs.inodes, MediaInode(before, k).value);
    if k != id {
      assert Apart(before.fs, before.medias[if k < id then k else id], before.medias[if k < id then id else k]);
      Unmoved(before.fs, after.fs, before.medias[k]);
    }
  }

  lemma SettlesKeeps(before: Store, after: Store, id: nat)
    requires Settles(before, after, id) && Handles(before)
    ensures Handles(after) && BytesKept(before, after)
  {
    hide Handles;
    SettlesEnds(before, after, id);
    EndsKeeps(before, after, id);
  }

  lemma EndsKeeps(before: Store, after: Store, id: nat)
    requires Ends(before, after, id) && Handles(before)
    ensures Handles(after) && BytesKept(before, after)
  {
    forall k | 0 <= k < |before.medias|
      ensures HandleSound(after.fs, after.medias[k])
      ensures MediaInode(after, k) == MediaInode(before, k) && MediaBytes(after, k) == MediaBytes(before, k)
    {
      EndedHandle(before, after, id, k);
    }
    forall j, k | 0 <= j < k < |before.medias|
      ensures Apart(after.fs, after.medias[j], after.medias[k])
    {
      assert Apart(before.fs, before.medias[j], before.medias[k]);
    }
  }

  // ---- A media more, a media longer ----

  lemma NewHandle(before: Store, after: Store, place: Place)
    requires NewlyStaged(before, after, place) && IsStaging(place.path)
    ensures var k := |before.medias|;
            HandleSound(after.fs, after.medias[k]) && MediaInode(after, k) == Some(|before.fs.inodes|) && MediaBytes(after, k) == []
  {
    Crc32cOfNothing(0);
    var h := after.medias[|before.medias|];
    assert InodeOf(after.fs, h.readFd) == Some(|before.fs.inodes|);
    assert InodeOf(after.fs, h.staging.value.appendFd) == Some(|before.fs.inodes|);
  }

  lemma OlderHandle(before: Store, after: Store, place: Place, k: nat)
    requires NewlyStaged(before, after, place) && k < |before.medias| && HandleSound(before.fs, before.medias[k])
    requires before.medias[k].staging.Some? ==> before.medias[k].staging.value.place != place
    ensures after.medias[k] == before.medias[k] && HandleSound(after.fs, before.medias[k])
    ensures MediaInode(after, k) == MediaInode(before, k) && MediaBytes(after, k) == MediaBytes(before, k)
    ensures before.medias[k].readFd < |before.fs.descriptors| && MediaInode(before, k).value < |before.fs.inodes|
    ensures before.medias[k].staging.Some? ==> before.medias[k].staging.value.appendFd < |before.fs.descriptors|
  {
    assert after.medias[k] == after.medias[..|before.medias|][k];
    Unmoved(before.fs, after.fs, before.medias[k]);
  }

  lemma StayApart(before: Store, after: Store, j: nat, k: nat)
    requires j < |before.medias| && k < |before.medias| && j < |after.medias| && k < |after.medias|
    requires Apart(before.fs, before.medias[j], before.medias[k])
    requires after.medias[j] == before.medias[j] && after.medias[k] == before.medias[k]
    requires MediaInode(after, j) == MediaInode(before, j) && MediaInode(after, k) == MediaInode(before, k)
    ensures Apart(after.fs, after.medias[j], after.medias[k])
  {
  }

  lemma StagedKeeps(before: Store, after: Store, place: Place)
    requires NewlyStaged(before, after, place) && IsStaging(place.path) && Handles(before)
    requires forall k :: 0 <= k < |before.medias| && before.medias[k].staging.Some? ==> before.medias[k].staging.value.place != place
    ensures Handles(after)
    ensures forall k :: 0 <= k < |before.medias| ==> MediaInode(after, k) == MediaInode(before, k) && MediaBytes(after, k) == MediaBytes(before, k)
  {
    var last := |before.medias|;
    forall k | 0 <= k < last
      ensures HandleSound(after.fs, after.medias[k])
      ensures MediaInode(after, k) == MediaInode(before, k) && MediaBytes(after, k) == MediaBytes(before, k)
    {
      OlderHandle(before, after, place, k);
    }
    NewHandle(before, after, place);
    forall j, k | 0 <= j < k < |after.medias|
      ensures Apart(after.fs, after.medias[j], after.medias[k])
    {
      OlderHandle(before, after, place, j);
      if k < last {
        OlderHandle(before, after, place, k);
        StayApart(before, after, j, k);
      } else {
        NewApart(before, after, place, j);
      }
    }
  }

  lemma NewApart(before: Store, after: Store, place: Place, k: nat)
    requires NewlyStaged(before, after, place) && k < |before.medias| && after.medias[k] == before.medias[k]
    requires MediaInode(after, k) == MediaInode(before, k)
    requires before.medias[k].readFd < |before.fs.descriptors|
    requires MediaInode(before, k).Some? && MediaInode(before, k).value < |before.fs.inodes|
    requires before.medias[k].staging.Some? ==>
               before.medias[k].staging.value.appendFd < |before.fs.descriptors| && before.medias[k].staging.value.place != place
    ensures Apart(after.fs, after.medias[k], after.medias[|before.medias|])
  {
    var h := after.medias[|before.medias|];
    assert InodeOf(after.fs, h.readFd) == Some(|before.fs.inodes|);
  }

  /** One media has more bytes; nothing else changed. */
  ghost predicate Grew(before: Store, after: Store, id: nat, data: Bytes) {
    match before
    case Store(fs, medias) =>
      && id < |medias| && after.medias == medias[id := Grown(medias[id], data)]
      && HandleSound(after.fs, after.medias[id]) && MediaInode(after, id) == MediaInode(before, id)
      && MediaBytes(after, id) == MediaBytes(before, id) + data
      && after.fs == fs.(inodes := after.fs.inodes) && KindsKept(fs.inodes, after.fs.inodes)
      && |after.fs.inodes| == |fs.inodes|
      && forall i :: 0 <= i < |fs.inodes| && Some(i) != MediaInode(before, id) ==> after.fs.inodes[i] == fs.inodes[i]
  }

  lemma GrewOther(before: Store, after: Store, id: nat, data: Bytes, k: nat)
    requires Grew(before, after, id, data) && Handles(before) && k < |before.medias| && k != id
    ensures HandleSound(after.fs, after.medias[k])
    ensures MediaInode(after, k) == MediaInode(before, k) && MediaBytes(after, k) == MediaBytes(before, k)
  {
    assert Apart(before.fs, before.medias[if k < id then k else id], before.medias[if k < id then id else k]);
    Unmoved(before.fs, after.fs, before.medias[k]);
  }

  lemma GrewKeeps(before: Store, after: Store, id: nat, data: Bytes)
    requires Grew(before, after, id, data) && Handles(before)
    ensures Handles(after)
    ensures forall k :: 0 <= k < |before.medias| ==>
                          && MediaInode(after, k) == MediaInode(before, k)
                          && MediaBytes(after, k) == MediaBytes(before, k) + if k == id then data else []
  {
    forall k | 0 <= k < |before.medias| && k != id
      ensures HandleSound(after.fs, after.medias[k])
      ensures MediaInode(after, k) == MediaInode(before, k) && MediaBytes(after, k) == MediaBytes(before, k) + []
    {
      GrewOther(before, after, id, data, k);
    }
    forall j, k | 0 <= j < k < |before.medias|
      ensures Apart(after.fs, after.medias[j], after.medias[k])
    {
      assert Apart(before.fs, before.medias[j], before.medias[k]);
    }
  }

  // ---- What no step takes away ----

  /** Media stay on their inodes, grow at the end only, and never again once they are settled. */
  ghost predicate Evolves(before: Store, after: Store) {
    match before
    case Store(_, medias) =>
      && |medias| <= |after.medias|
      && forall k :: 0 <= k < |medias| ==>
                       && MediaInode(after, k) == MediaInode(before, k) && MediaBytes(before, k) <= MediaBytes(after, k)
                       && (medias[k].staging.None? ==> after.medias[k] == medias[k] && MediaBytes(after, k) == MediaBytes(before, k))
  }

  lemma QuietEvolves(before: Store, after: Store)
    requires Quiet(before, after) && Handles(before)
    ensures Evolves(before, after)
  {
    hide Handles;
    QuietKeeps(before, after);
  }

  lemma EndsEvolves(before: Store, after: Store, id: nat)
    requires Ends(before, after, id) && Handles(before)
    ensures Evolves(before, after)
  {
    hide Handles;
    EndsKeeps(before, after, id);
  }

  lemma SettlesEvolves(before: Store, after: Store, id: nat)
    requires Settles(before, after, id) && Handles(before)
    ensures Evolves(before, after)
  {
    hide Handles;
    SettlesEnds(before, after, id);
    EndsEvolves(before, after, id);
  }

  lemma StagedEvolves(before: Store, after: Store, place: Place)
    requires NewlyStaged(before, after, place)
    requires forall k :: 0 <= k < |before.medias| ==> MediaInode(after, k) == MediaInode(before, k) && MediaBytes(after, k) == MediaBytes(before, k)
    ensures Evolves(before, after)
  {
    forall k | 0 <= k < |before.medias|
      ensures after.medias[k] == before.medias[k]
    {
      assert after.medias[..|before.medias|][k] == after.medias[k];
    }
  }

  lemma GrewEvolves(before: Store, after: Store, id: nat, data: Bytes)
    requires Grew(before, after, id, data) && Handles(before) && id < |before.medias| && before.medias[id].staging.Some?
    ensures Evolves(before, after)
  {
    hide Handles;
    GrewKeeps(before, after, id, data);
    forall k | 0 <= k < |before.medias|
      ensures MediaBytes(before, k) <= MediaBytes(after, k)
      ensures k != id ==> MediaBytes(after, k) == MediaBytes(before, k)
    {
      assert MediaBytes(before, k) + [] == MediaBytes(before, k);
    }
  }

  lemma EvolvesOn(a: Store, b: Store, c: Store)
    requires Evolves(a, b) && Evolves(b, c)
    ensures Evolves(a, c)
  {
    hide MediaInode, MediaBytes;
  }
}
