/** Names that cannot be stored together: the condition under which a run never fails is the exact one. */
module Fitting {

  import opened Database
  import opened FileStore
  import opened Layouts
  import opened Mirroring
  import opened Pathing
  import opened Placing
  import opened Posix
  import opened Resources
  import opened Restart
  import opened Shelves
  import opened SoundSteps
  import opened StoreSteps
  import opened Worlds
  import opened Wrappers

  /** Media that an insert has to put under the name; settled media stays where it is. */
  predicate Moves(store: Store, blob: Blob) {
    match blob.media
    case InMemory(_) => true
    case OnDisk(id) => blob.upload || id >= |store.medias| || store.medias[id].staging.Some?
  }

  // ---- Places that take no file ----

  predicate Takes(fs: Fs, place: Place)
    requires place.path != []
  {
    && place.bucket in fs.trees && IsDir(fs.trees[place.bucket], Dir(place.path)) && Base(place.path) != Text("")
    && place.path !in fs.trees[place.bucket].dirs
  }

  lemma DepositFails(store: Store, place: Place, blob: Blob)
    requires place.path != [] && !Takes(store.fs, place) && FileAt(store.fs, place) == None && Moves(store, blob)
    ensures Deposit(store, place, blob.media, blob.upload).Fail?
  {
  }

  /** A file where a directory is needed stops the insert. */
  lemma FileOnTheWay(store: Store, b: string, slot: Slot, blob: Blob, p: Path)
    requires slot.media != [] && slot.sidecar != [] && b in store.fs.trees
    requires p in Prefixes(Dir(slot.media)) && p in store.fs.trees[b].files
    ensures TellInsert(store, b, slot, blob).Fail?
  {
  }

  /** So does a directory in the place of either file. */
  lemma DirectoryInPlace(store: Store, b: string, slot: Slot, blob: Blob)
    requires slot.media != [] && slot.sidecar != [] && b in store.fs.trees && Moves(store, blob)
    requires FileAt(store.fs, Place(b, slot.media)) == None
    requires slot.media in store.fs.trees[b].dirs || slot.sidecar in store.fs.trees[b].dirs
    ensures TellInsert(store, b, slot, blob).Fail?
  {
    hide Deposit, MakeDirs, DirsGrow, GuardCollision;
    var made := MakeDirs(store.fs, b, Dir(slot.media));
    MakeDirsGrows(store.fs, b, Dir(slot.media));
    if made.Ok? {
      var made := made.value;
      MadeFiles(store.fs, b, Dir(slot.media));
      var deposited := Deposit(store.(fs := made), Place(b, slot.media), blob.media, blob.upload);
      DirsStay(store.fs, made, b);
      if slot.media in store.fs.trees[b].dirs {
        DepositFails(store.(fs := made), Place(b, slot.media), blob);
      } else if deposited.Ok? {
        DepositGrows(store.(fs := made), Place(b, slot.media), blob.media, blob.upload);
        DirsStay(made, deposited.value.fs, b);
      }
    }
  }

  lemma DirsStay(before: Fs, after: Fs, b: string)
    requires DirsGrow(before, after) && b in before.trees
    ensures b in after.trees && before.trees[b].dirs <= after.trees[b].dirs
  {
  }

  lemma MadeFiles(fs: Fs, b: string, dir: Path)
    ensures var r := MakeDirs(fs, b, dir); r.Ok? ==> forall p :: FileAt(r.value, Place(b, p)) == FileAt(fs, Place(b, p))
  {
  }

  // ---- Names that cannot be stored ----

  lemma GcsPath()
    ensures MediaPath(".gcs") == GCS_DIR
  {
    hide Split, Escape;
    DotGcs();
  }

  /** The file of a name that cannot be stored is not there. */
  lemma NoSuchFile(tree: Tree, inodes: seq<Content>, slots: Slots, name: string)
    requires Layout(slots) && NoStrayFiles(tree, inodes, slots) && !NeedsOverflow(name)
    requires MediaPath(name) == GCS_DIR || Base(MediaPath(name)) == Text("")
    ensures MediaPath(name) !in tree.files
  {
    hide NeedsOverflow, Split, MediaPath;
    NaturalPathsAreContained(name);
    GcsPath();
    var p := MediaPath(name);
    forall m | m in slots
      ensures p != slots[m].media && p != slots[m].sidecar
    {
      assert ProperSlot(slots[m]);
      assert Base(slots[m].media) in slots[m].media;
    }
  }

  /** A name with an empty path component, or the name of the reserved directory, is refused whatever the bytes. */
  lemma UnstorableRefused(store: Store, slots: Slots, b: string, blob: Blob)
    requires Layout(slots) && b in store.fs.trees && Tidy(store.fs.trees[b], store.fs.inodes, slots)
    requires !Storable(blob.meta.name) && Moves(store, blob)
    ensures TellInsert(store, b, SlotOf(blob.meta.name), blob).Fail?
  {
    hide NeedsOverflow, Split, Deposit, Layout, MediaPath, Moves;
    var name := blob.meta.name;
    var slot, tree := SlotOf(name), store.fs.trees[b];
    var p := slot.media;
    if name == ".gcs" {
      GcsPath();
      NoSuchFile(tree, store.fs.inodes, slots, name);
      DirectoryInPlace(store, b, slot, blob);
    } else {
      var k := EmptyComponent(name);
      if k < |p| - 1 {
        assert Dir(p)[k] == Text("");
      } else {
        NoSuchFile(tree, store.fs.inodes, slots, name);
        var made := MakeDirs(store.fs, b, Dir(p));
        if made.Ok? {
          MadeFiles(store.fs, b, Dir(p));
          assert Moves(store.(fs := made.value), blob) by { SameMedias(store, made.value, blob); }
          DepositFails(store.(fs := made.value), Place(b, p), blob);
        }
      }
    }
  }

  lemma SameMedias(store: Store, fs: Fs, blob: Blob)
    ensures Moves(store.(fs := fs), blob) == Moves(store, blob)
  {
  }

  lemma EmptyComponent(name: string) returns (k: nat)
    requires !Storable(name) && name != ".gcs"
    ensures !NeedsOverflow(name) && k < |MediaPath(name)| && MediaPath(name)[k] == Text("")
  {
    hide NeedsOverflow, Split;
    k :| 0 <= k < |Split(name)| && Split(name)[k] == "";
    SplitEscape(name);
    assert Escape("") == "";
  }

  // ---- Names that cannot be stored together ----

  /** A name whose files are not there, beside names that are all compatible with it. */
  lemma OneMore(tree: Tree, inodes: seq<Content>, slots: Slots, more: Slots, n: string)
    requires Layout(slots) && Layout(more) && n in more && slots == more - {n}
    requires Tidy(tree, inodes, slots)
    ensures Tidy(tree, inodes, more)
  {
    hide Layout, ProperSlot, Prefixes, StagedMedia, Labelled;
    NotThere(tree, inodes, slots, more, n);
    MoreLeads(tree, slots, more);
    MoreOwned(tree, inodes, slots, more);
    SlotsNamed(slots);
    SlotsNamed(more);
    forall m | m in more
      ensures Shelved(tree, inodes, m, more[m])
    {
      if m != n {
        assert Shelved(tree, inodes, m, slots[m]);
      }
    }
  }

  lemma MoreLeads(tree: Tree, slots: Slots, more: Slots)
    requires NoStrayDirs(tree, slots) && forall m :: m in slots ==> m in more && more[m] == slots[m]
    ensures NoStrayDirs(tree, more)
  {
    hide Prefixes;
    forall p | Leads(slots, p)
      ensures Leads(more, p)
    {
      var m :| m in slots && slots[m].media != [] && p in Prefixes(Dir(slots[m].media));
      assert more[m] == slots[m];
    }
  }

  lemma MoreOwned(tree: Tree, inodes: seq<Content>, slots: Slots, more: Slots)
    requires NoStrayFiles(tree, inodes, slots) && forall m :: m in slots ==> m in more && more[m] == slots[m]
    ensures NoStrayFiles(tree, inodes, more)
  {
    forall p | Owned(slots, p)
      ensures Owned(more, p)
    {
      var m :| m in slots && (p == slots[m].media || p == slots[m].sidecar);
      assert more[m] == slots[m];
    }
  }

  lemma NotThere(tree: Tree, inodes: seq<Content>, slots: Slots, more: Slots, n: string)
    requires Layout(more) && n in more && slots == more - {n} && NoStrayFiles(tree, inodes, slots)
    ensures more[n].media !in tree.files && more[n].sidecar !in tree.files
    ensures more[n].media != []
  {
    hide Layout, ProperSlot, Prefixes;
    SlotNotStaging(more, n);
    NotReserved(more, n);
    forall p | p == more[n].media || p == more[n].sidecar
      ensures p !in tree.files
    {
      if Owned(slots, p) {
        var m :| m in slots && (p == slots[m].media || p == slots[m].sidecar);
        SlotApart(more, m, n);
        assert false;
      }
    }
  }

  lemma NotReserved(slots: Slots, n: string)
    requires Layout(slots) && n in slots
    ensures slots[n].media != BUCKET_JSON && slots[n].sidecar != BUCKET_JSON
  {
    assert ProperSlot(slots[n]);
    assert IsReserved(BUCKET_JSON);
  }

  /** Every name has a live object in the bucket. */
  ghost predicate AllLive(w: World, b: string, names: set<string>) {
    b in w.index.buckets && forall m :: m in names ==> Current(w.index, b, m).Some?
  }

  /** The files of a live object are there, and all the directories on the way to them. */
  lemma LiveFiles(w: World, names: set<string>, b: string, m: string)
    requires Layout(SlotsOf(names)) && Named(SlotsOf(names)) && Sound(w, SlotsOf(names)) && Placed(w, SlotsOf(names))
    requires AllLive(w, b, names) && m in names
    ensures b in w.store.fs.trees
    ensures var tree := w.store.fs.trees[b];
            MediaPath(m) in tree.files && SidecarPath(m) in tree.files && Prefixes(Dir(MediaPath(m))) <= tree.dirs
  {
    hide Layout, Sound, Placed, MediaPath, SidecarPath, Generation, Current, Tidy;
    var slots := SlotsOf(names);
    TreeOf(w, slots, b);
    LiveBlob(w, slots, b, m);
    EntryShelved(w.store.fs, slots, b, m);
    SoundKeys(w, slots);
    HasItsDir(w, slots, b, KeyOf(Current(w.index, b, m).value));
  }

  lemma NotOnItsOwnWay(n: string)
    ensures MediaPath(n) !in Prefixes(Dir(MediaPath(n))) && SidecarPath(n) !in Prefixes(Dir(MediaPath(n)))
  {
    hide MediaPath;
    assert |Dir(MediaPath(n))| < |MediaPath(n)| == |SidecarPath(n)|;
  }

  /** A storable name that one of the live ones excludes, or is excluded by. */
  lemma Clashes(w: World, names: set<string>, b: string, blob: Blob, m: string)
    requires Layout(SlotsOf(names)) && Named(SlotsOf(names)) && Sound(w, SlotsOf(names)) && Placed(w, SlotsOf(names))
    requires AllLive(w, b, names) && m in names && blob.meta.name !in names && blob.media.InMemory?
    requires Storable(blob.meta.name)
    requires var n := blob.meta.name;
             || MediaPath(m) in Prefixes(Dir(MediaPath(n))) || SidecarPath(m) in Prefixes(Dir(MediaPath(n)))
             || MediaPath(n) in Prefixes(Dir(MediaPath(m))) || SidecarPath(n) in Prefixes(Dir(MediaPath(m)))
    ensures TellInsert(w.store, b, SlotOf(blob.meta.name), blob).Fail?
  {
    hide Layout, Sound, Placed, MediaPath, SidecarPath, TellInsert, AllLive, Tidy, Storable;
    var n := blob.meta.name;
    LiveFiles(w, names, b, m);
    if MediaPath(m) in Prefixes(Dir(MediaPath(n))) {
      FileOnTheWay(w.store, b, SlotOf(n), blob, MediaPath(m));
    } else if SidecarPath(m) in Prefixes(Dir(MediaPath(n))) {
      FileOnTheWay(w.store, b, SlotOf(n), blob, SidecarPath(m));
    } else {
      TreeWith(w, names, b);
      MediaNotThere(w.store.fs.trees[b], w.store.fs.inodes, names, n);
      DirectoryInPlace(w.store, b, SlotOf(n), blob);
    }
  }

  lemma TreeWith(w: World, names: set<string>, b: string)
    requires Layout(SlotsOf(names)) && Sound(w, SlotsOf(names)) && b in w.store.fs.trees
    ensures NoStrayFiles(w.store.fs.trees[b], w.store.fs.inodes, SlotsOf(names))
  {
    hide Layout;
    Shape(w, SlotsOf(names));
  }

  /** The bytes of another name are not there, compatible or not. */
  lemma MediaNotThere(tree: Tree, inodes: seq<Content>, names: set<string>, n: string)
    requires NoStrayFiles(tree, inodes, SlotsOf(names)) && n !in names && Storable(n)
    ensures MediaPath(n) !in tree.files
  {
    hide MediaPath, SidecarPath, Storable;
    SlotIsProper(n);
    assert IsReserved(BUCKET_JSON);
    forall m | m in names
      ensures MediaPath(n) != MediaPath(m) && MediaPath(n) != SidecarPath(m)
    {
      LayoutIsCollisionFree(n, m);
    }
  }

  /**
   In any reachable world in which a bucket has a live object under every one of the names, the insert
   of bytes under one more name succeeds exactly when the names with it are compatible.
   */
  lemma FitsExactly(names: set<string>, steps: seq<Step>, w: World, b: string, blob: Blob)
    requires Compatible(names)
    requires LegalRun(START, SlotsOf(names), steps) && Run(START, SlotsOf(names), steps) == Ok(w)
    requires AllLive(w, b, names) && blob.media.InMemory?
    ensures TellInsert(w.store, b, SlotOf(blob.meta.name), blob).Ok? <==> Compatible(names + {blob.meta.name})
  {
    hide Sound, Placed, Layout, Named, Run, LegalRun, Evolves, Compatible, TellInsert, SlotOf, Tidy, MediaPath, SidecarPath, Storable;
    var slots, n := SlotsOf(names), blob.meta.name;
    LayoutOf(names);
    SlotsNamed(slots);
    StartSound(slots);
    RunSound(START, slots, steps);
    TreeOf(w, slots, b);
    if Compatible(names + {n}) {
      LayoutOf(names + {n});
      if n in names {
        assert names + {n} == names;
      } else {
        OneMoreSlot(names, n);
        OneMore(w.store.fs.trees[b], w.store.fs.inodes, slots, SlotsOf(names + {n}), n);
      }
      InsertsBytes(w.store, SlotsOf(names + {n}), b, n, blob);
    } else if !Storable(n) {
      UnstorableRefused(w.store, slots, b, blob);
    } else {
      var m := Clash(names, n);
      Clashes(w, names, b, blob, m);
    }
  }

  lemma OneMoreSlot(names: set<string>, n: string)
    requires n !in names
    ensures SlotsOf(names) == SlotsOf(names + {n}) - {n} && n in SlotsOf(names + {n}) && SlotsOf(names + {n})[n] == SlotOf(n)
  {
    hide SlotOf;
  }

  lemma Clash(names: set<string>, n: string) returns (m: string)
    requires Compatible(names) && !Compatible(names + {n}) && Storable(n)
    ensures n !in names && m in names
    ensures || MediaPath(m) in Prefixes(Dir(MediaPath(n))) || SidecarPath(m) in Prefixes(Dir(MediaPath(n)))
            || MediaPath(n) in Prefixes(Dir(MediaPath(m))) || SidecarPath(n) in Prefixes(Dir(MediaPath(m)))
  {
    hide MediaPath, SidecarPath, Storable, Prefixes;
    assert n in names ==> names + {n} == names;
    NotOnItsOwnWay(n);
    var x, y :| x in names + {n} && y in names + {n} &&
                (MediaPath(y) in Prefixes(Dir(MediaPath(x))) || SidecarPath(y) in Prefixes(Dir(MediaPath(x))));
    m := if x == n then y else x;
  }
}
