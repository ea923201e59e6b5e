/** What each notification does to the entries of a tidy file system. */
module StoreSteps {

  import opened Bytes
  import opened FileMedia
  import opened FileStore
  import opened Pathing
  import opened Posix
  import opened Resources
  import opened Shelves
  import opened Wrappers

  ghost predicate Tidied(fs: Fs, slots: Slots)
    requires Layout(slots)
  {
    forall b :: b in fs.trees ==> Tidy(fs.trees[b], fs.inodes, slots)
  }

  function EntryAt(fs: Fs, bucket: string, slot: Slot): Option<Entry> {
    if bucket in fs.trees then EntryIn(fs.trees[bucket], fs.inodes, slot) else None
  }

  // ---- Writing under a slot ----

  /** The directories are there, and neither name is one of them. */
  ghost predicate Ready(tree: Tree, slot: Slot)
    requires slot.media != [] && slot.sidecar != []
  {
    && IsDir(tree, Dir(slot.media)) && Dir(slot.sidecar) == Dir(slot.media)
    && Base(slot.media) != Text("") && Base(slot.sidecar) != Text("")
    && slot.media !in tree.dirs && slot.sidecar !in tree.dirs
  }

  lemma NotDirs(tree: Tree, slots: Slots, n: string)
    requires Layout(slots) && n in slots && NoStrayDirs(tree, slots)
    ensures slots[n].media !in tree.dirs + Prefixes(Dir(slots[n].media))
    ensures slots[n].sidecar !in tree.dirs + Prefixes(Dir(slots[n].media))
  {
    assert ProperSlot(slots[n]) && Separate(slots[n], slots[n]);
    hide Prefixes;
    forall p | p in tree.dirs
      ensures p != slots[n].media && p != slots[n].sidecar
    {
      if Leads(slots, p) {
        LeadsNowhere(slots, n, p);
      } else {
        assert IsReserved(p);
      }
    }
  }

  lemma LeadsNowhere(slots: Slots, n: string, p: Path)
    requires Layout(slots) && n in slots && Leads(slots, p)
    ensures p != slots[n].media && p != slots[n].sidecar
  {
    hide Prefixes, ProperSlot;
    var m :| m in slots && slots[m].media != [] && p in Prefixes(Dir(slots[m].media));
    assert Separate(slots[m], slots[n]);
  }

  lemma NoFileInTheWay(tree: Tree, inodes: seq<Content>, slots: Slots, n: string)
    requires Layout(slots) && n in slots && NoStrayFiles(tree, inodes, slots)
    ensures forall p :: p in Prefixes(Dir(slots[n].media)) ==> p !in tree.files
  {
    assert ProperSlot(slots[n]);
    forall p | p in tree.files
      ensures p !in Prefixes(Dir(slots[n].media))
    {
      if Owned(slots, p) {
        OwnedIsApart(slots, n, p);
      }
    }
  }

  lemma OwnedIsApart(slots: Slots, n: string, p: Path)
    requires Layout(slots) && n in slots && Owned(slots, p)
    ensures p !in Prefixes(Dir(slots[n].media))
  {
    var m :| m in slots && (p == slots[m].media || p == slots[m].sidecar);
    assert Separate(slots[n], slots[m]);
  }

  /** The directories of a slot can always be made, and then its names can be set. */
  lemma MadeReady(fs: Fs, slots: Slots, bucket: string, n: string)
    requires Layout(slots) && n in slots && bucket in fs.trees && Tidy(fs.trees[bucket], fs.inodes, slots)
    ensures var made := MakeDirs(fs, bucket, Dir(slots[n].media));
            var tree := fs.trees[bucket];
            var after := tree.(dirs := tree.dirs + Prefixes(Dir(slots[n].media)));
            && made == Ok(fs.(trees := fs.trees[bucket := after]))
            && Ready(after, slots[n])
  {
    assert ProperSlot(slots[n]);
    NoFileInTheWay(fs.trees[bucket], fs.inodes, slots, n);
    NotDirs(fs.trees[bucket], slots, n);
    assert Base(slots[n].media) in slots[n].media;
    assert forall c :: c in Dir(slots[n].media) ==> c in slots[n].media;
  }

  /** Making the directories changes no file: a tidy tree stays tidy. */
  lemma MadeTidy(tree: Tree, inodes: seq<Content>, slots: Slots, n: string)
    requires Layout(slots) && n in slots && Tidy(tree, inodes, slots)
    ensures var after := tree.(dirs := tree.dirs + Prefixes(Dir(slots[n].media)));
            Tidy(after, inodes, slots) && forall m :: m in slots ==> SameSlot(tree, after, inodes, slots[m])
  {
    var after := tree.(dirs := tree.dirs + Prefixes(Dir(slots[n].media)));
    DirsStayKnown(tree, after, slots, n);
    forall m | m in slots
      ensures Shelved(after, inodes, m, slots[m])
    {
      assert Shelved(tree, inodes, m, slots[m]);
    }
  }

  lemma SetReady(fs: Fs, bucket: string, slot: Slot, path: Path, i: Inode)
    requires slot.media != [] && slot.sidecar != [] && (path == slot.media || path == slot.sidecar)
    requires bucket in fs.trees && Ready(fs.trees[bucket], slot)
    ensures var tree := fs.trees[bucket];
            var after := tree.(files := tree.files[path := i]);
            SetName(fs, Place(bucket, path), i) == Ok(fs.(trees := fs.trees[bucket := after])) && Ready(after, slot)
  {
  }

  // ---- Objects ----

  /** Only a sidecar of the object itself can be in its place. */
  lemma NoCollision(fs: Fs, slots: Slots, bucket: string, n: string)
    requires Layout(slots) && n in slots && bucket in fs.trees && Tidy(fs.trees[bucket], fs.inodes, slots)
    ensures GuardCollision(fs, Place(bucket, slots[n].sidecar), n) == None
  {
    assert ProperSlot(slots[n]) && Shelved(fs.trees[bucket], fs.inodes, n, slots[n]);
  }

  /** No other name's bytes are on this inode. */
  ghost predicate FreeFor(tree: Tree, slots: Slots, n: string, i: Inode) {
    forall m :: m in slots && m != n && slots[m].media in tree.files ==> tree.files[slots[m].media] != i
  }

  ghost predicate SameEntries(tree: Tree, inodes: seq<Content>, after: Tree, grown: seq<Content>, slots: Slots, n: string) {
    forall m :: m in slots && m != n ==> EntryIn(after, grown, slots[m]) == EntryIn(tree, inodes, slots[m])
  }

  lemma PrefixKeepsKinds(inodes: seq<Content>, grown: seq<Content>)
    requires inodes <= grown
    ensures KindsKept(inodes, grown)
  {
    forall i | 0 <= i < |inodes|
      ensures grown[i] == inodes[i]
    {
      assert grown[..|inodes|][i] == grown[i];
    }
  }

  /** The common end of an insert and an update: the bytes are in place, the sidecar is written. */
  lemma FinishEntry(tree: Tree, placed: Tree, inodes: seq<Content>, more: seq<Content>, slots: Slots, n: string,
                    meta: ObjectMeta, i: Inode)
    requires Layout(slots) && n in slots && meta.name == n && Tidy(tree, inodes, slots)
    requires inodes <= more && i < |more| && more[i].Media?
    requires OnlySlot(tree.files, placed.files, slots[n])
    requires slots[n].media in placed.files && placed.files[slots[n].media] == i && FreeFor(tree, slots, n, i)
    requires placed.dirs == tree.dirs + Prefixes(Dir(slots[n].media)) ||
             (placed.dirs == tree.dirs && IsDir(tree, Dir(slots[n].media)))
    ensures var final, grown := placed.(files := placed.files[slots[n].sidecar := |more|]), more + [ObjectSidecar(n, meta)];
            && Tidy(final, grown, slots) && Labelled(tree, inodes) && LabelOf(final, grown) == LabelOf(tree, inodes)
            && EntryIn(final, grown, slots[n]) == Some(Entry(meta, i))
            && SameEntries(tree, inodes, final, grown, slots, n)
  {
    var final, grown := placed.(files := placed.files[slots[n].sidecar := |more|]), more + [ObjectSidecar(n, meta)];
    assert slots[n].media != slots[n].sidecar by { assert Separate(slots[n], slots[n]); }
    PrefixKeepsKinds(inodes, grown);
    TidyGrows(tree, inodes, grown, slots);
    assert grown[|more|] == ObjectSidecar(n, meta) && grown[i] == more[i];
    SetEntry(tree, final, grown, slots, n, meta, i);
    forall m | m in slots && m != n
      ensures EntryIn(final, grown, slots[m]) == EntryIn(tree, inodes, slots[m])
    {
      assert SameSlot(tree, final, grown, slots[m]);
    }
  }

  /** One bucket's tree after a step on one name, seen from the file system. */
  ghost predicate Stepped(before: Fs, after: Fs, slots: Slots, bucket: string, n: string)
    requires Layout(slots)
  {
    match before
    case Fs(trees, inodes, _) =>
      && bucket in trees && bucket in after.trees
      && after.trees == trees[bucket := after.trees[bucket]]
      && Tidy(after.trees[bucket], after.inodes, slots)
      && Labelled(trees[bucket], inodes)
      && LabelOf(after.trees[bucket], after.inodes) == LabelOf(trees[bucket], inodes)
      && SameEntries(trees[bucket], inodes, after.trees[bucket], after.inodes, slots, n)
      && inodes <= after.inodes
  }

  /** Staging names are left alone, but perhaps one. */
  ghost predicate StagingKept(before: Fs, after: Fs, except: Option<Place>) {
    match before
    case Fs(_, _, _) =>
      forall place: Place :: IsStaging(place.path) && Some(place) != except ==> FileAt(after, place) == FileAt(before, place)
  }

  lemma SlotNotStaging(slots: Slots, n: string)
    requires Layout(slots) && n in slots
    ensures slots[n].media != [] && slots[n].sidecar != [] && slots[n].media != slots[n].sidecar
    ensures !IsStaging(slots[n].media) && !IsStaging(slots[n].sidecar)
  {
    assert ProperSlot(slots[n]) && Separate(slots[n], slots[n]);
  }

  function WithFiles(fs: Fs, bucket: string, files: map<Path, Inode>, inodes: seq<Content>): Fs
    requires bucket in fs.trees
  {
    fs.(trees := fs.trees[bucket := fs.trees[bucket].(files := files)], inodes := inodes)
  }

  /** The way is clear for an insert: directories made, names free to set, no collision. */
  ghost predicate Clear(fs: Fs, made: Fs, bucket: string, slot: Slot, n: string) {
    && slot.media != [] && slot.sidecar != [] && slot.media != slot.sidecar
    && MakeDirs(fs, bucket, Dir(slot.media)) == Ok(made)
    && bucket in made.trees && Ready(made.trees[bucket], slot)
    && GuardCollision(made, Place(bucket, slot.sidecar), n) == None
  }

  lemma WayIsClear(fs: Fs, slots: Slots, bucket: string, n: string) returns (made: Fs)
    requires Layout(slots) && n in slots && bucket in fs.trees && Tidy(fs.trees[bucket], fs.inodes, slots)
    ensures Clear(fs, made, bucket, slots[n], n)
    ensures var tree := fs.trees[bucket];
            made == fs.(trees := fs.trees[bucket := tree.(dirs := tree.dirs + Prefixes(Dir(slots[n].media)))])
  {
    SlotNotStaging(slots, n);
    var tree := fs.trees[bucket];
    MadeReady(fs, slots, bucket, n);
    made := fs.(trees := fs.trees[bucket := tree.(dirs := tree.dirs + Prefixes(Dir(slots[n].media)))]);
    MadeTidy(tree, fs.inodes, slots, n);
    NoCollision(made, slots, bucket, n);
  }

  /** What an insert of bytes does, call by call. */
  lemma BytesCalls(store: Store, made: Fs, bucket: string, slot: Slot, blob: Blob)
    requires Clear(store.fs, made, bucket, slot, blob.meta.name) && blob.media.InMemory?
    ensures var k, files := |made.inodes|, made.trees[bucket].files;
            TellInsert(store, bucket, slot, blob) ==
            Ok(store.(fs := WithFiles(made, bucket, files[slot.media := k][slot.sidecar := k + 1],
                                      made.inodes + [Content.Media(blob.media.bytes)] +
                                      [ObjectSidecar(blob.meta.name, blob.meta)])))
  {
    var k, files := |made.inodes|, made.trees[bucket].files;
    var more := made.inodes + [Content.Media(blob.media.bytes)];
    SetReady(made.(inodes := more), bucket, slot, slot.media, k);
    var deposited := WithFiles(made, bucket, files[slot.media := k], more);
    SetReady(deposited.(inodes := more + [ObjectSidecar(blob.meta.name, blob.meta)]), bucket, slot, slot.sidecar, k + 1);
    SetTwice(made.trees, bucket, deposited.trees[bucket], deposited.trees[bucket].(files := files[slot.media := k][slot.sidecar := k + 1]));
  }

  lemma SetTwice<K, V>(m: map<K, V>, key: K, first: V, second: V)
    ensures m[key := first][key := second] == m[key := second]
  {
  }

  /** The staging files of a tree, but perhaps one, are those of another. */
  ghost predicate SameStaging(files: map<Path, Inode>, after: map<Path, Inode>, bucket: string, except: Option<Place>) {
    match except
    case None => forall p :: IsStaging(p) ==> (p in after <==> p in files) && (p in files ==> p in after && after[p] == files[p])
    case Some(place) =>
      forall p :: IsStaging(p) && place != Place(bucket, p) ==>
                    (p in after <==> p in files) && (p in files ==> p in after && after[p] == files[p])
  }

  lemma StagingStays(before: Fs, after: Fs, bucket: string, except: Option<Place>)
    requires bucket in before.trees && bucket in after.trees
    requires after.trees == before.trees[bucket := after.trees[bucket]]
    requires SameStaging(before.trees[bucket].files, after.trees[bucket].files, bucket, except)
    ensures StagingKept(before, after, except)
  {
    forall place: Place | IsStaging(place.path) && Some(place) != except
      ensures FileAt(after, place) == FileAt(before, place)
    {
    }
  }

  lemma SetsMedia(files: map<Path, Inode>, slot: Slot, bucket: string, i: Inode)
    requires !IsStaging(slot.media)
    ensures OnlySlot(files, files[slot.media := i], slot) && SameStaging(files, files[slot.media := i], bucket, None)
  {
  }

  lemma MovesMedia(files: map<Path, Inode>, slot: Slot, bucket: string, staged: Path, i: Inode)
    requires !IsStaging(slot.media) && IsStaging(staged)
    ensures OnlySlot(files, files[slot.media := i] - {staged}, slot)
    ensures SameStaging(files, files[slot.media := i] - {staged}, bucket, Some(Place(bucket, staged)))
  {
  }

  /** An insert, or an update, seen from the file system. */
  lemma Lands(fs: Fs, after: Fs, slots: Slots, bucket: string, n: string, meta: ObjectMeta, i: Inode, placed: Tree,
              more: seq<Content>, except: Option<Place>)
    requires Layout(slots) && n in slots && meta.name == n
    requires bucket in fs.trees && Tidy(fs.trees[bucket], fs.inodes, slots)
    requires fs.inodes <= more && i < |more| && more[i].Media?
    requires OnlySlot(fs.trees[bucket].files, placed.files, slots[n]) && FreeFor(fs.trees[bucket], slots, n, i)
    requires slots[n].media in placed.files && placed.files[slots[n].media] == i
    requires placed.dirs == fs.trees[bucket].dirs + Prefixes(Dir(slots[n].media)) ||
             (placed.dirs == fs.trees[bucket].dirs && IsDir(fs.trees[bucket], Dir(slots[n].media)))
    requires SameStaging(fs.trees[bucket].files, placed.files, bucket, except)
    requires after.trees == fs.trees[bucket := placed.(files := placed.files[slots[n].sidecar := |more|])]
    requires after.inodes == more + [ObjectSidecar(n, meta)]
    ensures Stepped(fs, after, slots, bucket, n) && StagingKept(fs, after, except)
    ensures EntryAt(after, bucket, slots[n]) == Some(Entry(meta, i))
  {
    SlotNotStaging(slots, n);
    FinishEntry(fs.trees[bucket], placed, fs.inodes, more, slots, n, meta, i);
    assert fs.inodes <= after.inodes;
    StagingStays(fs, after, bucket, except);
  }

  lemma NewInodeIsFree(tree: Tree, inodes: seq<Content>, slots: Slots, n: string)
    requires NoStrayFiles(tree, inodes, slots)
    ensures FreeFor(tree, slots, n, |inodes|)
  {
  }

  /** Bytes from memory: a new file under the name. */
  lemma InsertsBytes(store: Store, slots: Slots, bucket: string, n: string, blob: Blob)
    requires Layout(slots) && n in slots && blob.meta.name == n && blob.media.InMemory?
    requires bucket in store.fs.trees && Tidy(store.fs.trees[bucket], store.fs.inodes, slots)
    ensures slots[n].media != [] && slots[n].sidecar != []
    ensures var r := TellInsert(store, bucket, slots[n], blob);
            && r.Ok? && r.value.medias == store.medias && r.value.fs.descriptors == store.fs.descriptors
            && Stepped(store.fs, r.value.fs, slots, bucket, n) && StagingKept(store.fs, r.value.fs, None)
            && EntryAt(r.value.fs, bucket, slots[n]) == Some(Entry(blob.meta, |store.fs.inodes|))
            && r.value.fs.inodes ==
               store.fs.inodes + [Content.Media(blob.media.bytes)] + [ObjectSidecar(n, blob.meta)]
  {
    hide Layout, Stepped, StagingKept, EntryAt, MakeDirs, GuardCollision, TellInsert, NoStrayFiles, NoStrayDirs, AllShelved, Unshared,
         StagedMedia, Labelled;
    SlotNotStaging(slots, n);
    var tree, slot, k := store.fs.trees[bucket], slots[n], |store.fs.inodes|;
    var made := WayIsClear(store.fs, slots, bucket, n);
    BytesCalls(store, made, bucket, slot, blob);
    var after := TellInsert(store, bucket, slot, blob).value.fs;
    var placed := made.trees[bucket].(files := tree.files[slot.media := k]);
    NewInodeIsFree(tree, store.fs.inodes, slots, n);
    SetTwice(store.fs.trees, bucket, made.trees[bucket], after.trees[bucket]);
    SetsMedia(tree.files, slot, bucket, k);
    Lands(store.fs, after, slots, bucket, n, blob.meta, k, placed, store.fs.inodes + [Content.Media(blob.media.bytes)], None);
  }

  // ---- Inserts of staged media ----

  /** A media that is still staged in this bucket, on this inode. */
  ghost predicate StagedHere(store: Store, bucket: string, id: nat, i: Inode) {
    && id < |store.medias| && i < |store.fs.inodes| && store.fs.inodes[i].Media?
    && match store.medias[id].staging
       case None => false
       case Some(Staging(place, _)) => place.bucket == bucket && IsStaging(place.path) && FileAt(store.fs, place) == Some(i)
  }

  lemma LinkCalls(store: Store, made: Fs, bucket: string, slot: Slot, blob: Blob, i: Inode)
    requires Clear(store.fs, made, bucket, slot, blob.meta.name) && blob.media.OnDisk? && blob.upload
    requires StagedHere(store.(fs := made), bucket, blob.media.id, i) && !IsStaging(slot.media)
    ensures var k, files := |made.inodes|, made.trees[bucket].files;
            TellInsert(store, bucket, slot, blob) ==
            Ok(store.(fs := WithFiles(made, bucket, files[slot.media := i][slot.sidecar := k],
                                      made.inodes + [ObjectSidecar(blob.meta.name, blob.meta)])))
  {
    var k, tree := |made.inodes|, made.trees[bucket];
    var bare := DropName(made, Place(bucket, slot.media));
    assert bare.trees[bucket].dirs == tree.dirs;
    assert (tree.files - {slot.media})[slot.media := i] == tree.files[slot.media := i];
    SetReady(bare, bucket, slot, slot.media, i);
    var placed := tree.(files := tree.files[slot.media := i]);
    SetTwice(made.trees, bucket, bare.trees[bucket], placed);
    var linked := made.(trees := made.trees[bucket := placed]);
    assert Deposit(store.(fs := made), Place(bucket, slot.media), blob.media, true) == Ok(store.(fs := linked));
    SetReady(linked.(inodes := made.inodes + [ObjectSidecar(blob.meta.name, blob.meta)]), bucket, slot, slot.sidecar, k);
    SetTwice(made.trees, bucket, placed, placed.(files := placed.files[slot.sidecar := k]));
  }

  lemma PromoteCalls(store: Store, made: Fs, bucket: string, slot: Slot, blob: Blob, i: Inode)
    requires Clear(store.fs, made, bucket, slot, blob.meta.name) && blob.media.OnDisk? && !blob.upload
    requires StagedHere(store.(fs := made), bucket, blob.media.id, i) && !IsStaging(slot.media)
    requires FileAt(made, Place(bucket, slot.media)) != Some(i)
    ensures var k, files, h := |made.inodes|, made.trees[bucket].files, store.medias[blob.media.id];
            TellInsert(store, bucket, slot, blob) ==
            Ok(Store(WithFiles(Close(made, h.staging.value.appendFd), bucket,
                               (files[slot.media := i] - {h.staging.value.place.path})[slot.sidecar := k],
                               made.inodes + [ObjectSidecar(blob.meta.name, blob.meta)]),
                     store.medias[blob.media.id := Sealed(h)]))
  {
    var k, tree, h := |made.inodes|, made.trees[bucket], store.medias[blob.media.id];
    var closed := Close(made, h.staging.value.appendFd);
    SetReady(closed, bucket, slot, slot.media, i);
    var placed := tree.(files := tree.files[slot.media := i] - {h.staging.value.place.path});
    SetTwice(made.trees, bucket, tree.(files := tree.files[slot.media := i]), placed);
    var promoted := closed.(trees := made.trees[bucket := placed]);
    assert PromoteTo(made, h, Place(bucket, slot.media)) == Ok((promoted, Sealed(h)));
    SetReady(promoted.(inodes := made.inodes + [ObjectSidecar(blob.meta.name, blob.meta)]), bucket, slot, slot.sidecar, k);
    SetTwice(made.trees, bucket, placed, placed.(files := placed.files[slot.sidecar := k]));
  }

  /** An appendable object: its file is a second name of the one that still grows. */
  lemma InsertsLinked(store: Store, slots: Slots, bucket: string, n: string, blob: Blob, i: Inode)
    requires Layout(slots) && n in slots && blob.meta.name == n && blob.media.OnDisk? && blob.upload
    requires bucket in store.fs.trees && Tidy(store.fs.trees[bucket], store.fs.inodes, slots)
    requires StagedHere(store, bucket, blob.media.id, i) && FreeFor(store.fs.trees[bucket], slots, n, i)
    ensures slots[n].media != [] && slots[n].sidecar != []
    ensures var r := TellInsert(store, bucket, slots[n], blob);
            && r.Ok? && r.value.medias == store.medias && r.value.fs.descriptors == store.fs.descriptors
            && Stepped(store.fs, r.value.fs, slots, bucket, n) && StagingKept(store.fs, r.value.fs, None)
            && EntryAt(r.value.fs, bucket, slots[n]) == Some(Entry(blob.meta, i))
            && r.value.fs.inodes == store.fs.inodes + [ObjectSidecar(n, blob.meta)]
  {
    hide Layout, Tidy, FreeFor, Stepped, StagingKept, TellInsert, EntryAt, OnlySlot, SameStaging;
    SlotNotStaging(slots, n);
    var tree, slot := store.fs.trees[bucket], slots[n];
    var made := WayIsClear(store.fs, slots, bucket, n);
    LinkCalls(store, made, bucket, slot, blob, i);
    var after := TellInsert(store, bucket, slot, blob).value.fs;
    var placed := made.trees[bucket].(files := tree.files[slot.media := i]);
    SetTwice(store.fs.trees, bucket, made.trees[bucket], after.trees[bucket]);
    SetsMedia(tree.files, slot, bucket, i);
    Lands(store.fs, after, slots, bucket, n, blob.meta, i, placed, store.fs.inodes, None);
  }

  /** A finished upload: its file moves from the staging name to the object's. */
  lemma InsertsPromoted(store: Store, slots: Slots, bucket: string, n: string, blob: Blob, i: Inode)
    requires Layout(slots) && n in slots && blob.meta.name == n && blob.media.OnDisk? && !blob.upload
    requires bucket in store.fs.trees && Tidy(store.fs.trees[bucket], store.fs.inodes, slots)
    requires StagedHere(store, bucket, blob.media.id, i) && FreeFor(store.fs.trees[bucket], slots, n, i)
    requires FileAt(store.fs, Place(bucket, slots[n].media)) != Some(i)
    ensures slots[n].media != [] && slots[n].sidecar != []
    ensures var r, h := TellInsert(store, bucket, slots[n], blob), store.medias[blob.media.id];
            && r.Ok? && r.value.medias == store.medias[blob.media.id := Sealed(h)]
            && r.value.fs.descriptors == Close(store.fs, h.staging.value.appendFd).descriptors
            && Stepped(store.fs, r.value.fs, slots, bucket, n)
            && StagingKept(store.fs, r.value.fs, Some(h.staging.value.place))
            && FileAt(r.value.fs, h.staging.value.place) == None
            && EntryAt(r.value.fs, bucket, slots[n]) == Some(Entry(blob.meta, i))
            && r.value.fs.inodes == store.fs.inodes + [ObjectSidecar(n, blob.meta)]
  {
    hide Layout, Tidy, FreeFor, Stepped, StagingKept, TellInsert, EntryAt, OnlySlot, SameStaging;
    SlotNotStaging(slots, n);
    var tree, slot, h := store.fs.trees[bucket], slots[n], store.medias[blob.media.id];
    var made := WayIsClear(store.fs, slots, bucket, n);
    PromoteCalls(store, made, bucket, slot, blob, i);
    var after := TellInsert(store, bucket, slot, blob).value.fs;
    var placed := made.trees[bucket].(files := tree.files[slot.media := i] - {h.staging.value.place.path});
    SetTwice(store.fs.trees, bucket, made.trees[bucket], after.trees[bucket]);
    MovesMedia(tree.files, slot, bucket, h.staging.value.place.path, i);
    Lands(store.fs, after, slots, bucket, n, blob.meta, i, placed, store.fs.inodes, Some(h.staging.value.place));
  }

  // ---- Updates and deletes ----

  lemma EntryShelved(fs: Fs, slots: Slots, bucket: string, n: string)
    requires Layout(slots) && n in slots && bucket in fs.trees && Tidy(fs.trees[bucket], fs.inodes, slots)
    ensures ProperSlot(slots[n]) && Shelved(fs.trees[bucket], fs.inodes, n, slots[n])
    ensures EntryAt(fs, bucket, slots[n]).Some? <==> slots[n].media in fs.trees[bucket].files
    ensures slots[n].media in fs.trees[bucket].files ==>
              var i := EntryAt(fs, bucket, slots[n]).value.inode;
              && IsDir(fs.trees[bucket], Dir(slots[n].media)) && i < |fs.inodes| && fs.inodes[i].Media?
              && i == fs.trees[bucket].files[slots[n].media] && FreeFor(fs.trees[bucket], slots, n, i)
  {
    assert ProperSlot(slots[n]) && Shelved(fs.trees[bucket], fs.inodes, n, slots[n]);
  }

  /** A live object's directories are there, and its sidecar can be replaced. */
  lemma EntryReady(fs: Fs, slots: Slots, bucket: string, n: string)
    requires Layout(slots) && n in slots && bucket in fs.trees && Tidy(fs.trees[bucket], fs.inodes, slots)
    requires IsDir(fs.trees[bucket], Dir(slots[n].media))
    ensures slots[n].media != [] && slots[n].sidecar != [] && Ready(fs.trees[bucket], slots[n])
  {
    SlotNotStaging(slots, n);
    assert ProperSlot(slots[n]);
    NotDirs(fs.trees[bucket], slots, n);
    assert Base(slots[n].media) in slots[n].media;
  }

  /** Whether an update ends the growth of the media. */
  predicate Seals(store: Store, blob: Blob) {
    blob.media.OnDisk? && blob.media.id < |store.medias| && store.medias[blob.media.id].staging.Some? && !blob.upload
  }

  /** A new sidecar under the name of an object; its bytes stay where they are. */
  lemma Updates(store: Store, slots: Slots, bucket: string, n: string, blob: Blob)
    requires Layout(slots) && n in slots && blob.meta.name == n && !Seals(store, blob)
    requires bucket in store.fs.trees && Tidy(store.fs.trees[bucket], store.fs.inodes, slots)
    requires EntryAt(store.fs, bucket, slots[n]).Some?
    ensures slots[n].media != [] && slots[n].sidecar != []
    ensures var r := TellUpdate(store, bucket, slots[n], blob);
            && r.Ok? && r.value.medias == store.medias && r.value.fs.descriptors == store.fs.descriptors
            && Stepped(store.fs, r.value.fs, slots, bucket, n) && StagingKept(store.fs, r.value.fs, None)
            && EntryAt(r.value.fs, bucket, slots[n]) ==
               Some(Entry(blob.meta, EntryAt(store.fs, bucket, slots[n]).value.inode))
            && r.value.fs.inodes == store.fs.inodes + [ObjectSidecar(n, blob.meta)]
  {
    EntryShelved(store.fs, slots, bucket, n);
    EntryReady(store.fs, slots, bucket, n);
    SlotNotStaging(slots, n);
    var tree, i := store.fs.trees[bucket], EntryAt(store.fs, bucket, slots[n]).value.inode;
    SetReady(store.fs.(inodes := store.fs.inodes + [ObjectSidecar(n, blob.meta)]), bucket, slots[n], slots[n].sidecar,
             |store.fs.inodes|);
    var after := TellUpdate(store, bucket, slots[n], blob).value.fs;
    SetsMedia(tree.files, slots[n], bucket, i);
    assert tree.files[slots[n].media := i] == tree.files;
    Lands(store.fs, after, slots, bucket, n, blob.meta, i, tree, store.fs.inodes, None);
  }

  lemma SealCalls(store: Store, bucket: string, slot: Slot, blob: Blob)
    requires slot.media != [] && slot.sidecar != [] && Seals(store, blob)
    requires bucket in store.fs.trees && Ready(store.fs.trees[bucket], slot)
    requires exists i :: StagedHere(store, bucket, blob.media.id, i)
    ensures var k, files, h := |store.fs.inodes|, store.fs.trees[bucket].files, store.medias[blob.media.id];
            TellUpdate(store, bucket, slot, blob) ==
            Ok(Store(WithFiles(Close(store.fs, h.staging.value.appendFd), bucket,
                               (files - {h.staging.value.place.path})[slot.sidecar := k],
                               store.fs.inodes + [ObjectSidecar(blob.meta.name, blob.meta)]),
                     store.medias[blob.media.id := Sealed(h)]))
  {
    var k, tree, h := |store.fs.inodes|, store.fs.trees[bucket], store.medias[blob.media.id];
    var closed := Close(store.fs, h.staging.value.appendFd);
    var placed := tree.(files := tree.files - {h.staging.value.place.path});
    var settled := closed.(trees := store.fs.trees[bucket := placed]);
    assert SealOff(store.fs, h) == Ok((settled, Sealed(h)));
    SetReady(settled.(inodes := store.fs.inodes + [ObjectSidecar(blob.meta.name, blob.meta)]), bucket, slot, slot.sidecar, k);
    SetTwice(store.fs.trees, bucket, placed, placed.(files := placed.files[slot.sidecar := k]));
  }

  /** The update that finalizes an appendable object takes the staging name away as well. */
  lemma UpdatesSealing(store: Store, slots: Slots, bucket: string, n: string, blob: Blob)
    requires Layout(slots) && n in slots && blob.meta.name == n && Seals(store, blob)
    requires bucket in store.fs.trees && Tidy(store.fs.trees[bucket], store.fs.inodes, slots)
    requires EntryAt(store.fs, bucket, slots[n]).Some?
    requires StagedHere(store, bucket, blob.media.id, EntryAt(store.fs, bucket, slots[n]).value.inode)
    ensures slots[n].media != [] && slots[n].sidecar != []
    ensures var r, h := TellUpdate(store, bucket, slots[n], blob), store.medias[blob.media.id];
            && r.Ok? && r.value.medias == store.medias[blob.media.id := Sealed(h)]
            && r.value.fs.descriptors == Close(store.fs, h.staging.value.appendFd).descriptors
            && Stepped(store.fs, r.value.fs, slots, bucket, n)
            && StagingKept(store.fs, r.value.fs, Some(h.staging.value.place))
            && FileAt(r.value.fs, h.staging.value.place) == None
            && EntryAt(r.value.fs, bucket, slots[n]) ==
               Some(Entry(blob.meta, EntryAt(store.fs, bucket, slots[n]).value.inode))
            && r.value.fs.inodes == store.fs.inodes + [ObjectSidecar(n, blob.meta)]
  {
    hide Layout, Tidy, FreeFor, Stepped, StagingKept, TellUpdate, OnlySlot, SameStaging;
    EntryShelved(store.fs, slots, bucket, n);
    EntryReady(store.fs, slots, bucket, n);
    SlotNotStaging(slots, n);
    var tree, i := store.fs.trees[bucket], EntryAt(store.fs, bucket, slots[n]).value.inode;
    var place := store.medias[blob.media.id].staging.value.place;
    SealCalls(store, bucket, slots[n], blob);
    var after := TellUpdate(store, bucket, slots[n], blob).value.fs;
    MovesMedia(tree.files, slots[n], bucket, place.path, i);
    assert tree.files[slots[n].media := i] == tree.files;
    Lands(store.fs, after, slots, bucket, n, blob.meta, i, tree.(files := tree.files - {place.path}), store.fs.inodes,
          Some(place));
  }

  /** Both names go, and nothing else. */
  lemma Deletes(store: Store, slots: Slots, bucket: string, n: string)
    requires Layout(slots) && n in slots
    requires bucket in store.fs.trees && Tidy(store.fs.trees[bucket], store.fs.inodes, slots)
    requires slots[n].media != [] && IsDir(store.fs.trees[bucket], Dir(slots[n].media))
    ensures slots[n].sidecar != []
    ensures var r := TellDelete(store, bucket, slots[n]);
            && r.Ok? && r.value.medias == store.medias && r.value.fs.descriptors == store.fs.descriptors
            && Stepped(store.fs, r.value.fs, slots, bucket, n) && StagingKept(store.fs, r.value.fs, None)
            && EntryAt(r.value.fs, bucket, slots[n]) == None
            && r.value.fs.inodes == store.fs.inodes
  {
    hide Layout, Tidy, Stepped, StagingKept, OthersKept, SameEntries, EntryIn, OnlySlot;
    SlotNotStaging(slots, n);
    var fs, tree, slot := store.fs, store.fs.trees[bucket], slots[n];
    var after := tree.(files := tree.files - {slot.media} - {slot.sidecar});
    DropCalls(fs, bucket, slot);
    DropsSlot(tree.files, slot, bucket);
    DropEntry(tree, after, fs.inodes, slots, n);
    OthersSame(tree, after, fs.inodes, slots, n);
    StepsTo(fs, slots, bucket, n, after);
    StagingStays(fs, fs.(trees := fs.trees[bucket := after]), bucket, None);
  }

  lemma DropsSlot(files: map<Path, Inode>, slot: Slot, bucket: string)
    requires !IsStaging(slot.media) && !IsStaging(slot.sidecar)
    ensures OnlySlot(files, files - {slot.media} - {slot.sidecar}, slot)
    ensures SameStaging(files, files - {slot.media} - {slot.sidecar}, bucket, None)
  {
  }

  lemma OthersSame(tree: Tree, after: Tree, inodes: seq<Content>, slots: Slots, n: string)
    requires OthersKept(tree, after, inodes, slots, n)
    ensures SameEntries(tree, inodes, after, inodes, slots, n)
  {
    hide EntryIn;
    forall m | m in slots && m != n
      ensures EntryIn(after, inodes, slots[m]) == EntryIn(tree, inodes, slots[m])
    {
      assert SameSlot(tree, after, inodes, slots[m]);
    }
  }

  lemma StepsTo(fs: Fs, slots: Slots, bucket: string, n: string, tree: Tree)
    requires Layout(slots) && bucket in fs.trees && Tidy(tree, fs.inodes, slots)
    requires Labelled(fs.trees[bucket], fs.inodes) && LabelOf(tree, fs.inodes) == LabelOf(fs.trees[bucket], fs.inodes)
    requires SameEntries(fs.trees[bucket], fs.inodes, tree, fs.inodes, slots, n)
    ensures Stepped(fs, fs.(trees := fs.trees[bucket := tree]), slots, bucket, n)
  {
    hide Layout, EntryIn, NoStrayFiles, NoStrayDirs, AllShelved, Unshared, StagedMedia;
  }

  lemma DropCalls(fs: Fs, bucket: string, slot: Slot)
    requires bucket in fs.trees
    ensures var tree := fs.trees[bucket];
            DropName(DropName(fs, Place(bucket, slot.media)), Place(bucket, slot.sidecar)) ==
            fs.(trees := fs.trees[bucket := tree.(files := tree.files - {slot.media} - {slot.sidecar})])
  {
    DropCall(fs, bucket, slot.media);
    var tree := fs.trees[bucket];
    var once := tree.(files := tree.files - {slot.media});
    DropCall(fs.(trees := fs.trees[bucket := once]), bucket, slot.sidecar);
    SetTwice(fs.trees, bucket, once, tree.(files := tree.files - {slot.media} - {slot.sidecar}));
  }

  lemma DropCall(fs: Fs, bucket: string, path: Path)
    requires bucket in fs.trees
    ensures var tree := fs.trees[bucket];
            DropName(fs, Place(bucket, path)) == fs.(trees := fs.trees[bucket := tree.(files := tree.files - {path})])
  {
    var tree := fs.trees[bucket];
    if path !in tree.files {
      assert tree.files - {path} == tree.files;
      assert fs.trees[bucket := tree] == fs.trees;
    }
  }

  // ---- Uploads ----

  /** A tree with one more staging file holds the same entries. */
  lemma StageTidy(tree: Tree, inodes: seq<Content>, slots: Slots, path: Path)
    requires Layout(slots) && Tidy(tree, inodes, slots) && IsStaging(path) && path !in tree.files
    ensures var after, grown := tree.(files := tree.files[path := |inodes|]), inodes + [Content.Media([])];
            && Tidy(after, grown, slots) && Labelled(tree, inodes) && LabelOf(after, grown) == LabelOf(tree, inodes)
            && forall m :: m in slots ==> EntryIn(after, grown, slots[m]) == EntryIn(tree, inodes, slots[m])
  {
    var after, grown := tree.(files := tree.files[path := |inodes|]), inodes + [Content.Media([])];
    PrefixKeepsKinds(inodes, grown);
    TidyGrows(tree, inodes, grown, slots);
    assert !IsStaging(BUCKET_JSON);
    forall m | m in slots
      ensures Shelved(after, grown, m, slots[m]) && SameSlot(tree, after, grown, slots[m])
    {
      SlotNotStaging(slots, m);
      assert Shelved(tree, grown, m, slots[m]);
    }
    assert StagedMedia(after, grown);
    assert NoStrayFiles(after, grown, slots);
    assert NoStrayDirs(after, slots);
  }

  lemma UploadsDirThere(fs: Fs, slots: Slots, bucket: string, path: Path)
    requires Layout(slots) && bucket in fs.trees && Tidy(fs.trees[bucket], fs.inodes, slots) && IsStaging(path)
    requires Base(path) != Text("")
    ensures MakeDirs(fs, bucket, UPLOADS_DIR) == Ok(fs)
    ensures Dir(path) in fs.trees[bucket].dirs && path !in fs.trees[bucket].dirs
  {
    var tree := fs.trees[bucket];
    assert Dir(path) == UPLOADS_DIR;
    forall p | p in Prefixes(UPLOADS_DIR)
      ensures p in tree.dirs && p !in tree.files
    {
      assert p == GCS_DIR || p == UPLOADS_DIR;
      NotOwned(slots, p);
    }
    assert tree.dirs + Prefixes(UPLOADS_DIR) == tree.dirs;
    assert fs.trees[bucket := tree] == fs.trees;
    NotOwned(slots, path);
  }

  lemma NotOwned(slots: Slots, p: Path)
    requires Layout(slots) && IsReserved(p)
    ensures !Owned(slots, p) && (IsStaging(p) ==> !Leads(slots, p))
  {
    forall m | m in slots
      ensures p != slots[m].media && p != slots[m].sidecar
      ensures IsStaging(p) ==> p !in Prefixes(Dir(slots[m].media))
    {
      assert ProperSlot(slots[m]);
    }
  }

  /** A new upload: an empty file under a staging name, on an inode of its own, and one more media. */
  ghost predicate NewlyStaged(before: Store, after: Store, place: Place) {
    match before
    case Store(fs, medias) =>
      && |after.medias| == |medias| + 1 && after.medias[..|medias|] == medias
      && after.fs.inodes == fs.inodes + [Content.Media([])]
      && after.fs.descriptors == fs.descriptors + [Some(|fs.inodes|), Some(|fs.inodes|)]
      && after.medias[|medias|] ==
         Handle(|fs.descriptors| + 1, 0, 0, Live([]), Some(Staging(place, |fs.descriptors|)))
      && FileAt(after.fs, place) == Some(|fs.inodes|) && StagingKept(fs, after.fs, Some(place))
  }

  /** The trees are as they were but for files outside of every slot. */
  ghost predicate OnlyStaging(before: Fs, after: Fs, slots: Slots, bucket: string)
    requires Layout(slots)
  {
    match before
    case Fs(trees, inodes, _) =>
      && bucket in trees && bucket in after.trees
      && after.trees == trees[bucket := after.trees[bucket]]
      && Tidy(after.trees[bucket], after.inodes, slots)
      && Labelled(trees[bucket], inodes)
      && LabelOf(after.trees[bucket], after.inodes) == LabelOf(trees[bucket], inodes)
      && forall m :: m in slots ==> EntryAt(after, bucket, slots[m]) == EntryAt(before, bucket, slots[m])
  }

  lemma Stages(store: Store, slots: Slots, bucket: string, uploadId: string)
    requires Layout(slots) && bucket in store.fs.trees && Tidy(store.fs.trees[bucket], store.fs.inodes, slots)
    requires uploadId != "" && FileAt(store.fs, Place(bucket, StagingPath(uploadId))) == None
    ensures var r := StageUpload(store, bucket, uploadId);
            && r.Ok? && NewlyStaged(store, r.value, Place(bucket, StagingPath(uploadId)))
            && OnlyStaging(store.fs, r.value.fs, slots, bucket)
  {
    var fs, place := store.fs, Place(bucket, StagingPath(uploadId));
    var tree := fs.trees[bucket];
    UploadsDirThere(fs, slots, bucket, place.path);
    StageCalls(fs, place);
    StageTidy(tree, fs.inodes, slots, place.path);
    var after := StageUpload(store, bucket, uploadId).value.fs;
    StagingStays(fs, after, bucket, Some(place));
  }

  lemma StageCalls(fs: Fs, place: Place)
    requires place.bucket in fs.trees && place.path != [] && FileAt(fs, place) == None
    requires Dir(place.path) in fs.trees[place.bucket].dirs && place.path !in fs.trees[place.bucket].dirs
    requires Base(place.path) != Text("")
    ensures var tree, d := fs.trees[place.bucket], |fs.descriptors|;
            var after := tree.(files := tree.files[place.path := |fs.inodes|]);
            Stage(fs, place) ==
            Ok((Fs(fs.trees[place.bucket := after], fs.inodes + [Content.Media([])],
                   fs.descriptors + [Some(|fs.inodes|), Some(|fs.inodes|)]),
                Handle(d + 1, 0, 0, Live([]), Some(Staging(place, d)))))
  {
    var i := |fs.inodes|;
    assert fs.descriptors + [Some(i)] + [Some(i)] == fs.descriptors + [Some(i), Some(i)];
  }

  /** Appending touches the bytes of one inode, and no name. */
  lemma Grows(store: Store, slots: Slots, id: nat, data: Bytes)
    requires Layout(slots) && Tidied(store.fs, slots)
    requires id < |store.medias| && WellFormed(store.fs, store.medias[id]) && store.medias[id].staging.Some?
    ensures var r, h := Grow(store, id, data), store.medias[id];
            && r.Ok? && r.value.medias == store.medias[id := Grown(h, data)]
            && WellFormed(r.value.fs, Grown(h, data)) && BytesOf(r.value.fs, Grown(h, data)) == BytesOf(store.fs, h) + data
            && r.value.fs == store.fs.(inodes := r.value.fs.inodes) && KindsKept(store.fs.inodes, r.value.fs.inodes)
            && |r.value.fs.inodes| == |store.fs.inodes|
            && (forall i :: 0 <= i < |store.fs.inodes| && Some(i) != InodeOf(store.fs, h.readFd) ==>
                              r.value.fs.inodes[i] == store.fs.inodes[i])
  {
    AppendAdds(store.fs, store.medias[id], data);
  }

  // ---- Buckets ----

  lemma InsertsBucket(store: Store, slots: Slots, bucket: BucketMeta)
    requires Layout(slots) && bucket.name !in store.fs.trees
    ensures var r := TellBucket(store, bucket);
            && r.Ok? && r.value.medias == store.medias && r.value.fs.descriptors == store.fs.descriptors
            && r.value.fs.inodes == store.fs.inodes + [BucketSidecar(bucket)]
            && bucket.name in r.value.fs.trees
            && r.value.fs.trees == store.fs.trees[bucket.name := r.value.fs.trees[bucket.name]]
            && Tidy(r.value.fs.trees[bucket.name], r.value.fs.inodes, slots)
            && LabelOf(r.value.fs.trees[bucket.name], r.value.fs.inodes) == bucket
            && (forall m :: m in slots ==> EntryAt(r.value.fs, bucket.name, slots[m]) == None)
            && StagingKept(store.fs, r.value.fs, None)
  {
    hide Layout, Tidy, TellBucket, StagingKept, EntryIn;
    var b, k := bucket.name, |store.fs.inodes|;
    var tree := NewTree(k);
    var after := Fs(store.fs.trees[b := tree], store.fs.inodes + [BucketSidecar(bucket)], store.fs.descriptors);
    BucketCalls(store, bucket);
    assert TellBucket(store, bucket) == Ok(store.(fs := after));
    NewTreeTidy(store.fs.inodes, slots, bucket);
    NewTreeStaging(store.fs, after, b, k);
  }

  /** A bucket's tree when it is made. */
  function NewTree(i: Inode): Tree {
    Tree(map[BUCKET_JSON := i], Prefixes(GCS_DIR) + SUBDIRS)
  }

  lemma NewTreeTidy(inodes: seq<Content>, slots: Slots, bucket: BucketMeta)
    requires Layout(slots)
    ensures var tree, grown := NewTree(|inodes|), inodes + [BucketSidecar(bucket)];
            && Tidy(tree, grown, slots) && LabelOf(tree, grown) == bucket
            && forall m :: m in slots ==> EntryIn(tree, grown, slots[m]) == None
  {
    hide Layout, Leads;
    var tree, grown := NewTree(|inodes|), inodes + [BucketSidecar(bucket)];
    assert IsReserved(BUCKET_JSON) && !IsStaging(BUCKET_JSON);
    assert GCS_DIR in Prefixes(GCS_DIR);
    forall m | m in slots
      ensures slots[m].media != [] && slots[m].media !in tree.files && slots[m].sidecar !in tree.files
    {
      SlotNotReserved(slots, m);
    }
  }

  lemma SlotNotReserved(slots: Slots, m: string)
    requires Layout(slots) && m in slots
    ensures slots[m].media != [] && slots[m].media != BUCKET_JSON && slots[m].sidecar != BUCKET_JSON
  {
    assert ProperSlot(slots[m]) && IsReserved(BUCKET_JSON);
  }

  lemma NewTreeStaging(fs: Fs, after: Fs, b: string, i: Inode)
    requires b !in fs.trees && after.trees == fs.trees[b := NewTree(i)]
    ensures StagingKept(fs, after, None)
  {
    assert !IsStaging(BUCKET_JSON);
    forall place: Place | IsStaging(place.path)
      ensures FileAt(after, place) == FileAt(fs, place)
    {
    }
  }

  lemma BucketCalls(store: Store, bucket: BucketMeta)
    requires bucket.name !in store.fs.trees
    ensures var tree := NewTree(|store.fs.inodes|);
            TellBucket(store, bucket) ==
            Ok(store.(fs := Fs(store.fs.trees[bucket.name := tree], store.fs.inodes + [BucketSidecar(bucket)],
                               store.fs.descriptors)))
  {
    var b, none: map<Path, Inode> := bucket.name, map[];
    var wide := Tree(none, {} + Prefixes(GCS_DIR));
    assert GCS_DIR in Prefixes(GCS_DIR);
    SetTwice(store.fs.trees, b, Tree(none, {}), wide);
    var made := store.fs.(trees := store.fs.trees[b := wide]);
    assert MakeDirs(WithTree(store.fs, b), b, GCS_DIR) == Ok(made);
    assert none.Keys == {} && SUBDIRS - {} == SUBDIRS;
    var full := Tree(none, Prefixes(GCS_DIR) + SUBDIRS);
    assert wide.dirs + (SUBDIRS - none.Keys) == full.dirs;
    SetTwice(store.fs.trees, b, wide, full);
    assert MakeSubdirs(made, b) == store.fs.(trees := store.fs.trees[b := full]);
    assert BUCKET_JSON !in full.dirs && Dir(BUCKET_JSON) == GCS_DIR;
    assert none[BUCKET_JSON := |store.fs.inodes|] == map[BUCKET_JSON := |store.fs.inodes|];
    SetTwice(store.fs.trees, b, full, Tree(map[BUCKET_JSON := |store.fs.inodes|], full.dirs));
  }

  lemma RelabelTidy(tree: Tree, inodes: seq<Content>, slots: Slots, bucket: BucketMeta)
    requires Layout(slots) && Tidy(tree, inodes, slots)
    ensures var after, grown := tree.(files := tree.files[BUCKET_JSON := |inodes|]), inodes + [BucketSidecar(bucket)];
            && Tidy(after, grown, slots) && LabelOf(after, grown) == bucket
            && forall m :: m in slots ==> EntryIn(after, grown, slots[m]) == EntryIn(tree, inodes, slots[m])
  {
    hide Layout, NoStrayDirs;
    var after, grown := tree.(files := tree.files[BUCKET_JSON := |inodes|]), inodes + [BucketSidecar(bucket)];
    PrefixKeepsKinds(inodes, grown);
    TidyGrows(tree, inodes, grown, slots);
    RelabelFiles(tree, grown, slots, |inodes|);
    forall m | m in slots
      ensures slots[m].media != [] && Shelved(after, grown, m, slots[m]) && SameSlot(tree, after, grown, slots[m])
    {
      RelabelSlot(tree, grown, slots, |inodes|, m);
    }
    DirsUntouched(tree, after, slots);
  }

  lemma DirsUntouched(tree: Tree, after: Tree, slots: Slots)
    requires NoStrayDirs(tree, slots) && after.dirs == tree.dirs
    ensures NoStrayDirs(after, slots)
  {
  }

  lemma RelabelSlot(tree: Tree, inodes: seq<Content>, slots: Slots, i: Inode, m: string)
    requires Layout(slots) && m in slots && AllShelved(tree, inodes, slots)
    ensures var after := tree.(files := tree.files[BUCKET_JSON := i]);
            && slots[m].media != [] && Shelved(after, inodes, m, slots[m]) && SameSlot(tree, after, inodes, slots[m])
  {
    assert ProperSlot(slots[m]) && IsReserved(BUCKET_JSON);
    assert Shelved(tree, inodes, m, slots[m]);
  }

  lemma RelabelFiles(tree: Tree, inodes: seq<Content>, slots: Slots, i: Inode)
    requires NoStrayFiles(tree, inodes, slots) && StagedMedia(tree, inodes) && i < |inodes|
    ensures var after := tree.(files := tree.files[BUCKET_JSON := i]);
            NoStrayFiles(after, inodes, slots) && StagedMedia(after, inodes)
  {
    assert !IsStaging(BUCKET_JSON);
  }

  lemma UpdatesBucket(store: Store, slots: Slots, bucket: BucketMeta)
    requires Layout(slots) && bucket.name in store.fs.trees
    requires Tidy(store.fs.trees[bucket.name], store.fs.inodes, slots)
    ensures var r := TellBucketUpdate(store, bucket);
            && r.Ok? && r.value.medias == store.medias && r.value.fs.descriptors == store.fs.descriptors
            && r.value.fs.inodes == store.fs.inodes + [BucketSidecar(bucket)]
            && bucket.name in r.value.fs.trees
            && r.value.fs.trees == store.fs.trees[bucket.name := r.value.fs.trees[bucket.name]]
            && Tidy(r.value.fs.trees[bucket.name], r.value.fs.inodes, slots)
            && LabelOf(r.value.fs.trees[bucket.name], r.value.fs.inodes) == bucket
            && (forall m :: m in slots ==> EntryAt(r.value.fs, bucket.name, slots[m]) == EntryAt(store.fs, bucket.name, slots[m]))
            && StagingKept(store.fs, r.value.fs, None)
  {
    var fs, b := store.fs, bucket.name;
    var tree := fs.trees[b];
    RelabelTidy(tree, fs.inodes, slots, bucket);
    GcsDirThere(fs, slots, b);
    var after := fs.(trees := fs.trees[b := tree.(files := tree.files[BUCKET_JSON := |fs.inodes|])],
                     inodes := fs.inodes + [BucketSidecar(bucket)]);
    assert TellBucketUpdate(store, bucket) == Ok(store.(fs := after));
    assert !IsStaging(BUCKET_JSON);
    StagingStays(fs, after, b, None);
  }

  lemma GcsDirThere(fs: Fs, slots: Slots, bucket: string)
    requires Layout(slots) && bucket in fs.trees && Tidy(fs.trees[bucket], fs.inodes, slots)
    ensures MakeDirs(fs, bucket, GCS_DIR) == Ok(fs)
    ensures GCS_DIR in fs.trees[bucket].dirs && BUCKET_JSON !in fs.trees[bucket].dirs && Dir(BUCKET_JSON) == GCS_DIR
  {
    var tree := fs.trees[bucket];
    forall p | p in Prefixes(GCS_DIR)
      ensures p in tree.dirs && p !in tree.files
    {
      assert p == GCS_DIR;
      NotOwned(slots, p);
    }
    assert tree.dirs + Prefixes(GCS_DIR) == tree.dirs;
    assert fs.trees[bucket := tree] == fs.trees;
    forall m | m in slots
      ensures BUCKET_JSON !in Prefixes(Dir(slots[m].media))
    {
      assert ProperSlot(slots[m]);
    }
    assert !Leads(slots, BUCKET_JSON);
  }
}
