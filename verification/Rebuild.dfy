/**
 The startup scan (`rebuild_index` of testbench/filestore.py): walk the trees in whatever order they
 are listed, read the sidecars, and seed the index from them. Media is opened, not read.
 */
module Rebuild {

  import opened Checksums
  import opened Database
  import opened FileMedia
  import opened FileStore
  import opened Pathing
  import opened Posix
  import opened Resources
  import opened Shelves
  import opened Wrappers

  type Objects = map<Key, Blob>
  type Live = map<string, nat>

  function MetaAt(inodes: seq<Content>, tree: Tree, p: Path): Option<ObjectMeta> {
    if p in tree.files && tree.files[p] < |inodes| && inodes[tree.files[p]].ObjectSidecar?
    then Some(inodes[tree.files[p]].meta) else None
  }

  /** The inode of the described media, if the file is there. */
  function InodeFor(tree: Tree, p: Path): Option<Inode> {
    if Scanned(p) && Described(p) in tree.files then Some(tree.files[Described(p)]) else None
  }

  // ---- What the scan stops at ----

  /** A sidecar that does not load, or that describes a file that holds no media. */
  predicate Unreadable(inodes: seq<Content>, tree: Tree, p: Path) {
    MetaAt(inodes, tree, p).None? ||
    var i := InodeFor(tree, p); i.Some? && !(i.value < |inodes| && inodes[i.value].Media?)
  }

  /** Two names that lead to the same bytes. */
  predicate Collides(inodes: seq<Content>, tree: Tree, p: Path, q: Path) {
    var a, b := MetaAt(inodes, tree, p), MetaAt(inodes, tree, q);
    a.Some? && b.Some? && a.value.name != b.value.name && InodeFor(tree, p).Some? && InodeFor(tree, p) == InodeFor(tree, q)
  }

  /** Every sidecar loads, and no two names share their bytes. */
  ghost predicate Clean(inodes: seq<Content>, tree: Tree, sidecars: set<Path>) {
    match tree
    case Tree(_, _) =>
      && (forall p :: p in sidecars ==> !Unreadable(inodes, tree, p))
      && (forall p, q :: p in sidecars && q in sidecars ==> !Collides(inodes, tree, p, q))
  }

  ghost function Sidecars(tree: Tree): set<Path> {
    set p | p in tree.files && Scanned(p)
  }

  // ---- The same, from the names of the files ----

  /** One file has the name of the other with the suffix of sidecars. */
  predicate Describes(p: Path, m: Path) {
    && |p| == |m| > 0 && p[..|p| - 1] == m[..|m| - 1]
    && match m[|m| - 1]
       case Text(text) => p[|p| - 1] == Text(text + ".gcsmeta")
       case Digest(of, suffix) => p[|p| - 1] == Digest(of, suffix + ".gcsmeta")
  }

  /** Outside the reserved directory, or among the names that are kept under digests. */
  predicate Visited(p: Path) {
    |p| == 1 || (|p| > 1 && p[0] != Text(".gcs")) || (|p| > 2 && p[1] == Text("overflow"))
  }

  lemma DescribedDecided(p: Path)
    ensures Scanned(p) <==> Visited(p) && exists m :: Describes(p, m)
    ensures Scanned(p) ==> forall m :: Describes(p, m) <==> m == Described(p)
  {
    if p != [] && IsSidecarName(Base(p)) {
      var m := Sibling(p, Strip(Base(p)));
      assert Describes(p, m) by {
        match Base(p)
        case Text(text) => assert text == text[..|text| - 8] + ".gcsmeta";
        case Digest(_, suffix) => assert suffix == suffix[..|suffix| - 8] + ".gcsmeta";
      }
    }
    forall m | Describes(p, m)
      ensures p != [] && IsSidecarName(Base(p)) && m == Sibling(p, Strip(Base(p)))
    {
      SuffixStrips(Base(m));
      assert m == Dir(m) + [Base(m)];
    }
  }

  /** A sidecar of the tree, and the file it describes. */
  predicate Paired(tree: Tree, p: Path, m: Path) {
    p in tree.files && Visited(p) && Describes(p, m)
  }

  ghost predicate Loads(inodes: seq<Content>, tree: Tree, p: Path, m: Path)
    requires p in tree.files
  {
    && tree.files[p] < |inodes| && inodes[tree.files[p]].ObjectSidecar?
    && (m in tree.files ==> tree.files[m] < |inodes| && inodes[tree.files[m]].Media?)
  }

  lemma PairedDecided(tree: Tree, p: Path)
    ensures p in Sidecars(tree) <==> exists m :: Paired(tree, p, m)
    ensures forall m :: Paired(tree, p, m) ==> InodeFor(tree, p) == if m in tree.files then Some(tree.files[m]) else None
  {
    hide Describes, Visited;
    DescribedDecided(p);
    if p in Sidecars(tree) {
      var m :| Describes(p, m);
      assert Paired(tree, p, m);
    }
  }

  lemma LoadsDecided(inodes: seq<Content>, tree: Tree, p: Path, m: Path)
    requires Paired(tree, p, m)
    ensures Loads(inodes, tree, p, m) <==> !Unreadable(inodes, tree, p)
  {
    hide Describes, Visited, InodeFor;
    PairedDecided(tree, p);
  }

  /** Two sidecars of different names describe the same inode. */
  ghost predicate Shares(inodes: seq<Content>, tree: Tree, p: Path, m: Path, q: Path, n: Path)
    requires p in tree.files && q in tree.files
  {
    && Loads(inodes, tree, p, m) && Loads(inodes, tree, q, n) && m in tree.files && n in tree.files
    && tree.files[m] == tree.files[n] && inodes[tree.files[p]].meta.name != inodes[tree.files[q]].meta.name
  }

  lemma SharesDecided(inodes: seq<Content>, tree: Tree, p: Path, m: Path, q: Path, n: Path)
    requires Paired(tree, p, m) && Paired(tree, q, n) && Loads(inodes, tree, p, m) && Loads(inodes, tree, q, n)
    ensures Shares(inodes, tree, p, m, q, n) <==> Collides(inodes, tree, p, q)
  {
    hide Describes, Visited, InodeFor;
    PairedDecided(tree, p);
    PairedDecided(tree, q);
  }

  /** Nothing stops the scan exactly if every sidecar loads, and no two of different names describe the same inode. */
  lemma ScanDecided(inodes: seq<Content>, tree: Tree)
    ensures Clean(inodes, tree, Sidecars(tree)) <==>
            && (forall p, m :: Paired(tree, p, m) ==> Loads(inodes, tree, p, m))
            && (forall p, m, q, n :: Paired(tree, p, m) && Paired(tree, q, n) ==> !Shares(inodes, tree, p, m, q, n))
  {
    hide Paired, Loads, Unreadable, Collides, Sidecars, Shares;
    assert forall p, m :: Paired(tree, p, m) ==> p in tree.files by { PairedInTree(tree); }
    forall p, m | Paired(tree, p, m)
      ensures p in Sidecars(tree) && (Loads(inodes, tree, p, m) <==> !Unreadable(inodes, tree, p))
    {
      PairedDecided(tree, p);
      LoadsDecided(inodes, tree, p, m);
    }
    forall p | p in Sidecars(tree)
      ensures exists m :: Paired(tree, p, m)
    {
      PairedDecided(tree, p);
    }
    if forall p, m :: Paired(tree, p, m) ==> Loads(inodes, tree, p, m) {
      forall p, m, q, n | Paired(tree, p, m) && Paired(tree, q, n)
        ensures Shares(inodes, tree, p, m, q, n) <==> Collides(inodes, tree, p, q)
      {
        SharesDecided(inodes, tree, p, m, q, n);
      }
    }
  }

  lemma PairedInTree(tree: Tree)
    ensures forall p, m :: Paired(tree, p, m) ==> p in tree.files
  {
  }

  // ---- What the scan finds ----

  /** The appendable case has to be computed from the file; everything else trusts the sidecar. */
  predicate Outdated(meta: ObjectMeta) {
    meta.size > 0 && meta.md5 == Md5([])
  }

  ghost predicate Hydration(fs: Fs, h: Handle, meta: ObjectMeta, inode: Inode) {
    && InodeOf(fs, h.readFd) == Some(inode) && h.staging == None && inode < |fs.inodes| && fs.inodes[inode].Media?
    && if Outdated(meta) then Rolling(h, fs.inodes[inode].bytes)
       else h.size == meta.size && h.crc == meta.crc && h.md5 == Frozen(meta.md5)
  }

  ghost predicate Hydrated(fs: Fs, medias: seq<Handle>, tree: Tree, p: Path, blob: Blob) {
    && MetaAt(fs.inodes, tree, p) == Some(blob.meta) && !blob.upload && blob.uploadGen == 0
    && match InodeFor(tree, p)
       case None => blob.media == InMemory([])
       case Some(inode) =>
         blob.media.OnDisk? && blob.media.id < |medias| && Hydration(fs, medias[blob.media.id], blob.meta, inode)
  }

  ghost predicate Found(fs: Fs, medias: seq<Handle>, tree: Tree, done: set<Path>, blob: Blob) {
    exists p :: p in done && Hydrated(fs, medias, tree, p, blob)
  }

  /** The dictionaries hold what the sidecars read so far say, and nothing else. */
  ghost predicate Holds(fs: Fs, medias: seq<Handle>, tree: Tree, done: set<Path>, objects: Objects, live: Live) {
    match fs
    case Fs(_, _, _) =>
      && (forall p :: p in done && MetaAt(fs.inodes, tree, p).Some? ==>
            var meta := MetaAt(fs.inodes, tree, p).value; Key(meta.name, meta.generation) in objects && meta.name in live)
      && (forall key :: key in objects ==> KeyOf(objects[key]) == key && Found(fs, medias, tree, done, objects[key]))
      && (forall n :: n in live ==> Key(n, live[n]) in objects)
  }

  /** More open descriptors and more media; everything else as it was. */
  ghost predicate Opened(before: Store, after: Store) {
    && after.fs.trees == before.fs.trees && after.fs.inodes == before.fs.inodes
    && before.fs.descriptors <= after.fs.descriptors && before.medias <= after.medias
  }

  lemma StaysFound(before: Store, after: Store, tree: Tree, done: set<Path>, more: set<Path>, blob: Blob)
    requires Opened(before, after) && Found(before.fs, before.medias, tree, done, blob) && done <= more
    ensures Found(after.fs, after.medias, tree, more, blob)
  {
    var p :| p in done && Hydrated(before.fs, before.medias, tree, p, blob);
    assert Hydrated(after.fs, after.medias, tree, p, blob) by {
      if blob.media.OnDisk? {
        assert after.medias[..|before.medias|][blob.media.id] == after.medias[blob.media.id];
        var d := before.medias[blob.media.id].readFd;
        assert after.fs.descriptors[..|before.fs.descriptors|][d] == after.fs.descriptors[d];
      }
    }
  }

  // ---- The scan ----

  method HydrateMedia(store: Store, tree: Tree, p: Path, meta: ObjectMeta) returns (after: Store, media: MediaRef)
    requires Scanned(p) && MetaAt(store.fs.inodes, tree, p) == Some(meta) && !Unreadable(store.fs.inodes, tree, p)
    ensures Opened(store, after) && Hydrated(after.fs, after.medias, tree, p, Blob(meta, media, false, 0))
  {
    hide MetaAt, InodeFor, Scanned, Crc32c, Rolling;
    var inode := InodeFor(tree, p);
    if inode.None? {
      return store, InMemory([]);
    }
    var d := |store.fs.descriptors|;
    var fs := store.fs.(descriptors := store.fs.descriptors + [inode]);
    var h;
    if meta.size > 0 && meta.md5 == Md5([]) {
      h := Recompute(fs, d);
    } else {
      h := FromExisting(d, meta.size, meta.crc, meta.md5);
    }
    return Store(fs, store.medias + [h]), OnDisk(|store.medias|);
  }

  ghost predicate SeenVia(inodes: seq<Content>, tree: Tree, done: set<Path>, i: Inode, name: string) {
    exists p :: p in done && InodeFor(tree, p) == Some(i) && MetaAt(inodes, tree, p).Some?
                && MetaAt(inodes, tree, p).value.name == name
  }

  /** The names seen so far, by the inode of their media. */
  ghost predicate Seen(inodes: seq<Content>, tree: Tree, done: set<Path>, seen: map<Inode, string>) {
    match tree
    case Tree(_, _) =>
      && (forall p :: p in done && MetaAt(inodes, tree, p).Some? && InodeFor(tree, p).Some? ==>
            InodeFor(tree, p).value in seen && seen[InodeFor(tree, p).value] == MetaAt(inodes, tree, p).value.name)
      && (forall i :: i in seen ==> SeenVia(inodes, tree, done, i, seen[i]))
  }

  datatype Scan = Scan(store: Store, objects: Objects, live: Live, seen: map<Inode, string>)

  /** The scan so far, from the store it began with. */
  ghost predicate Upto(store: Store, tree: Tree, done: set<Path>, scan: Scan) {
    match scan
    case Scan(now, objects, live, seen) =>
      && Opened(store, now) && Clean(store.fs.inodes, tree, done) && Seen(store.fs.inodes, tree, done, seen)
      && Holds(now.fs, now.medias, tree, done, objects, live)
  }

  method ScanBucket(store: Store, tree: Tree) returns (r: Outcome<Scan>)
    ensures r.Ok? <==> Clean(store.fs.inodes, tree, Sidecars(tree))
    ensures r.Fail? ==> r.error == Corrupt || r.error == Collision
    ensures r.Ok? ==>
              && Opened(store, r.value.store)
              && Holds(r.value.store.fs, r.value.store.medias, tree, Sidecars(tree), r.value.objects, r.value.live)
  {
    hide Upto, Clean, Stops, Holds, Opened, Scanned;
    ScanBegins(store, tree);
    var todo := tree.files.Keys;
    ghost var done: set<Path> := {};
    var scan := Scan(store, map[], map[], map[]);
    while todo != {}
      invariant todo <= tree.files.Keys && done == Sidecars(tree) - todo
      invariant Upto(store, tree, done, scan)
      decreases |todo|
    {
      var p :| p in todo;
      todo := todo - {p};
      if Scanned(p) {
        var step := HydrateLive(scan, tree, p, store, done);
        if step.Fail? {
          NotClean(store.fs.inodes, tree, done, p);
          return Fail(step.error);
        }
        scan := step.value;
        done := done + {p};
      }
    }
    assert done == Sidecars(tree);
    ScanEnds(store, tree, scan);
    return Ok(scan);
  }

  lemma ScanBegins(store: Store, tree: Tree)
    ensures Upto(store, tree, {}, Scan(store, map[], map[], map[]))
  {
  }

  lemma ScanEnds(store: Store, tree: Tree, scan: Scan)
    requires Upto(store, tree, Sidecars(tree), scan)
    ensures Clean(store.fs.inodes, tree, Sidecars(tree)) && Opened(store, scan.store)
    ensures Holds(scan.store.fs, scan.store.medias, tree, Sidecars(tree), scan.objects, scan.live)
  {
    hide Clean, Opened, Holds, Scanned;
  }

  /** What stops the scan at a sidecar. */
  ghost predicate Stops(inodes: seq<Content>, tree: Tree, done: set<Path>, p: Path) {
    Unreadable(inodes, tree, p) || exists q :: q in done && Collides(inodes, tree, p, q)
  }

  lemma NotClean(inodes: seq<Content>, tree: Tree, done: set<Path>, p: Path)
    requires Stops(inodes, tree, done, p) && p in Sidecars(tree) && done <= Sidecars(tree)
    ensures !Clean(inodes, tree, Sidecars(tree))
  {
  }

  lemma StillClean(inodes: seq<Content>, tree: Tree, done: set<Path>, p: Path)
    requires !Stops(inodes, tree, done, p) && Clean(inodes, tree, done)
    ensures Clean(inodes, tree, done + {p})
  {
  }

  lemma SeesOne(inodes: seq<Content>, tree: Tree, done: set<Path>, seen: map<Inode, string>, p: Path)
    requires Seen(inodes, tree, done, seen) && MetaAt(inodes, tree, p).Some?
    requires var i := InodeFor(tree, p); i.Some? && i.value in seen ==> seen[i.value] == MetaAt(inodes, tree, p).value.name
    ensures var i, name := InodeFor(tree, p), MetaAt(inodes, tree, p).value.name;
            Seen(inodes, tree, done + {p}, if i.Some? then seen[i.value := name] else seen)
  {
    var i, name := InodeFor(tree, p), MetaAt(inodes, tree, p).value.name;
    var more := if i.Some? then seen[i.value := name] else seen;
    forall j | j in more
      ensures SeenVia(inodes, tree, done + {p}, j, more[j])
    {
      if Some(j) == i {
        assert p in done + {p};
      } else {
        assert SeenVia(inodes, tree, done, j, seen[j]);
      }
    }
  }

  method HydrateLive(scan: Scan, tree: Tree, p: Path, ghost store: Store, ghost done: set<Path>) returns (r: Outcome<Scan>)
    requires Scanned(p) && p in tree.files && Upto(store, tree, done, scan)
    ensures r.Fail? <==> Stops(store.fs.inodes, tree, done, p)
    ensures r.Fail? ==> r.error == Corrupt || r.error == Collision
    ensures r.Ok? ==> Upto(store, tree, done + {p}, r.value)
  {
    ghost var inodes := store.fs.inodes;
    var content := MetaAt(scan.store.fs.inodes, tree, p);
    if Unreadable(scan.store.fs.inodes, tree, p) {
      return Fail(Corrupt);
    }
    var meta := content.value;
    var inode := InodeFor(tree, p);
    if inode.Some? && inode.value in scan.seen && scan.seen[inode.value] != meta.name {
      assert SeenVia(inodes, tree, done, inode.value, scan.seen[inode.value]);
      return Fail(Collision);
    }
    StillClean(inodes, tree, done, p);
    SeesOne(inodes, tree, done, scan.seen, p);
    var after, media := HydrateMedia(scan.store, tree, p, meta);
    var blob := Blob(meta, media, false, 0);
    AddsFound(scan.store, after, tree, done, p, scan.objects, scan.live, blob);
    return Ok(Scan(after, scan.objects[KeyOf(blob) := blob], scan.live[meta.name := meta.generation],
                   if inode.Some? then scan.seen[inode.value := meta.name] else scan.seen));
  }

  lemma AddsFound(before: Store, after: Store, tree: Tree, done: set<Path>, p: Path, objects: Objects, live: Live, blob: Blob)
    requires Opened(before, after) && Holds(before.fs, before.medias, tree, done, objects, live)
    requires Hydrated(after.fs, after.medias, tree, p, blob)
    ensures Holds(after.fs, after.medias, tree, done + {p}, objects[KeyOf(blob) := blob],
                  live[blob.meta.name := blob.meta.generation])
  {
    var more := objects[KeyOf(blob) := blob];
    forall key | key in more
      ensures KeyOf(more[key]) == key && Found(after.fs, after.medias, tree, done + {p}, more[key])
    {
      if key != KeyOf(blob) {
        StaysFound(before, after, tree, done, done + {p}, objects[key]);
      }
    }
  }

  lemma StaysHeld(before: Store, after: Store, tree: Tree, done: set<Path>, objects: Objects, live: Live)
    requires Opened(before, after) && Holds(before.fs, before.medias, tree, done, objects, live)
    ensures Holds(after.fs, after.medias, tree, done, objects, live)
  {
    forall key | key in objects
      ensures Found(after.fs, after.medias, tree, done, objects[key])
    {
      StaysFound(before, after, tree, done, done, objects[key]);
    }
  }

  /** A tree that is a bucket has a bucket sidecar; it must load, and the tree must scan. */
  ghost predicate Scannable(fs: Fs, bucket: string)
    requires bucket in fs.trees
  {
    BUCKET_JSON in fs.trees[bucket].files ==>
      Labelled(fs.trees[bucket], fs.inodes) && Clean(fs.inodes, fs.trees[bucket], Sidecars(fs.trees[bucket]))
  }

  /** Bucket sidecars name the directory they are in: the store writes them nowhere else. */
  ghost predicate SelfLabelled(fs: Fs) {
    forall b :: b in fs.trees && Labelled(fs.trees[b], fs.inodes) ==> LabelOf(fs.trees[b], fs.inodes).name == b
  }

  /** The index of the trees in `done`. */
  ghost predicate Rebuilt(store: Store, index: Index, done: set<string>) {
    match index
    case Index(buckets, objects, live, folders) =>
      && buckets.Keys == objects.Keys == live.Keys && folders == map[]
      && (forall b :: b in buckets <==> b in done && b in store.fs.trees && BUCKET_JSON in store.fs.trees[b].files)
      && (forall b :: b in buckets ==> BucketRebuilt(store, b, buckets[b], objects[b], live[b]))
  }

  ghost predicate BucketRebuilt(store: Store, bucket: string, meta: BucketMeta, objects: Objects, live: Live) {
    match store
    case Store(fs, medias) =>
      && bucket in fs.trees && Labelled(fs.trees[bucket], fs.inodes) && LabelOf(fs.trees[bucket], fs.inodes) == meta
      && Holds(fs, medias, fs.trees[bucket], Sidecars(fs.trees[bucket]), objects, live)
  }

  method RebuildIndex(store: Store) returns (r: Outcome<(Index, Store)>)
    ensures r.Ok? <==> forall b :: b in store.fs.trees ==> Scannable(store.fs, b)
    ensures r.Ok? && SelfLabelled(store.fs) ==>
              Opened(store, r.value.1) && Rebuilt(r.value.1, r.value.0, store.fs.trees.Keys)
  {
    var todo := store.fs.trees.Keys;
    var now, index := store, EMPTY;
    while todo != {}
      invariant todo <= store.fs.trees.Keys && Opened(store, now)
      invariant forall b :: b in store.fs.trees.Keys - todo ==> Scannable(store.fs, b)
      invariant SelfLabelled(store.fs) ==> Rebuilt(now, index, store.fs.trees.Keys - todo)
      decreases |todo|
    {
      var b :| b in todo;
      var tree := store.fs.trees[b];
      if BUCKET_JSON in tree.files {
        var i := tree.files[BUCKET_JSON];
        if i >= |store.fs.inodes| || !store.fs.inodes[i].BucketSidecar? {
          return Fail(Corrupt);
        }
        var scan := ScanBucket(now, tree);
        if scan.Fail? {
          return Fail(scan.error);
        }
        var bucket := store.fs.inodes[i].bucket;
        if SelfLabelled(store.fs) {
          AddsBucket(now, scan.value.store, index, store.fs.trees.Keys - todo, b, scan.value.objects, scan.value.live);
        }
        now := scan.value.store;
        index := Index(index.buckets[bucket.name := bucket], index.objects[bucket.name := scan.value.objects],
                       index.live[bucket.name := scan.value.live], map[]);
      }
      todo := todo - {b};
    }
    return Ok((index, now));
  }

  lemma AddsBucket(before: Store, after: Store, index: Index, done: set<string>, b: string, objects: Objects, live: Live)
    requires Opened(before, after) && Rebuilt(before, index, done) && b in after.fs.trees && b !in done
    requires Labelled(after.fs.trees[b], after.fs.inodes) && LabelOf(after.fs.trees[b], after.fs.inodes).name == b
    requires Holds(after.fs, after.medias, after.fs.trees[b], Sidecars(after.fs.trees[b]), objects, live)
    ensures var bucket := LabelOf(after.fs.trees[b], after.fs.inodes);
            Rebuilt(after, Index(index.buckets[b := bucket], index.objects[b := objects], index.live[b := live], map[]),
                    done + {b})
  {
    hide Clean, Holds;
    var bucket := LabelOf(after.fs.trees[b], after.fs.inodes);
    var more := Index(index.buckets[b := bucket], index.objects[b := objects], index.live[b := live], map[]);
    forall c | c in more.buckets
      ensures BucketRebuilt(after, c, more.buckets[c], more.objects[c], more.live[c])
    {
      if c != b {
        BucketStays(before, after, c, index.buckets[c], index.objects[c], index.live[c]);
      }
    }
  }

  lemma BucketStays(before: Store, after: Store, b: string, meta: BucketMeta, objects: Objects, live: Live)
    requires Opened(before, after) && BucketRebuilt(before, b, meta, objects, live)
    ensures BucketRebuilt(after, b, meta, objects, live)
  {
    StaysHeld(before, after, before.fs.trees[b], Sidecars(before.fs.trees[b]), objects, live);
  }

  // ---- On a tidy tree ----

  /** A sidecar on a tidy tree is that of a name with an entry. */
  lemma TidySidecar(tree: Tree, inodes: seq<Content>, slots: Slots, p: Path) returns (n: string)
    requires Layout(slots) && Tidy(tree, inodes, slots) && p in Sidecars(tree)
    ensures n in slots && p == slots[n].sidecar && EntryIn(tree, inodes, slots[n]).Some?
    ensures var e := EntryIn(tree, inodes, slots[n]).value;
            && MetaAt(inodes, tree, p) == Some(e.meta) && InodeFor(tree, p) == Some(e.inode)
            && e.meta.name == n && e.inode < |inodes| && inodes[e.inode].Media?
  {
    assert !Scanned(BUCKET_JSON) && (IsStaging(p) ==> !Scanned(p));
    assert Owned(slots, p);
    n :| n in slots && (p == slots[n].media || p == slots[n].sidecar);
    assert ProperSlot(slots[n]) && Shelved(tree, inodes, n, slots[n]);
  }

  lemma EntrySidecar(tree: Tree, inodes: seq<Content>, slots: Slots, n: string)
    requires Layout(slots) && n in slots && EntryIn(tree, inodes, slots[n]).Some?
    ensures slots[n].sidecar in Sidecars(tree)
    ensures MetaAt(inodes, tree, slots[n].sidecar) == Some(EntryIn(tree, inodes, slots[n]).value.meta)
  {
    assert ProperSlot(slots[n]);
  }

  lemma TidyIsClean(tree: Tree, inodes: seq<Content>, slots: Slots)
    requires Layout(slots) && Tidy(tree, inodes, slots)
    ensures Clean(inodes, tree, Sidecars(tree))
  {
    forall p | p in Sidecars(tree)
      ensures !Unreadable(inodes, tree, p)
    {
      var n := TidySidecar(tree, inodes, slots, p);
    }
    forall p, q | p in Sidecars(tree) && q in Sidecars(tree)
      ensures !Collides(inodes, tree, p, q)
    {
      TidyApart(tree, inodes, slots, p, q);
    }
  }

  lemma TidyApart(tree: Tree, inodes: seq<Content>, slots: Slots, p: Path, q: Path)
    requires Layout(slots) && Tidy(tree, inodes, slots) && p in Sidecars(tree) && q in Sidecars(tree)
    ensures !Collides(inodes, tree, p, q)
  {
    var n := TidySidecar(tree, inodes, slots, p);
    var m := TidySidecar(tree, inodes, slots, q);
    assert Unshared(tree, slots);
  }

  /** One name as the scan of a tidy tree leaves it: its entry, and a media over the entry's inode. */
  ghost predicate Recovered(fs: Fs, medias: seq<Handle>, entry: Option<Entry>, name: string, objects: Objects, live: Live) {
    match entry
    case None => name !in live
    case Some(Entry(meta, inode)) =>
      && name in live && live[name] == meta.generation && Key(name, meta.generation) in objects
      && var blob := objects[Key(name, meta.generation)];
         && blob.meta == meta && !blob.upload && blob.media.OnDisk? && blob.media.id < |medias|
         && Hydration(fs, medias[blob.media.id], meta, inode)
  }

  lemma FoundOnTidy(fs: Fs, medias: seq<Handle>, tree: Tree, slots: Slots, blob: Blob)
    requires Layout(slots) && Tidy(tree, fs.inodes, slots) && Found(fs, medias, tree, Sidecars(tree), blob)
    ensures var n := blob.meta.name;
            && n in slots && EntryIn(tree, fs.inodes, slots[n]).Some?
            && EntryIn(tree, fs.inodes, slots[n]).value.meta == blob.meta && !blob.upload
            && blob.media.OnDisk? && blob.media.id < |medias|
            && Hydration(fs, medias[blob.media.id], blob.meta, EntryIn(tree, fs.inodes, slots[n]).value.inode)
  {
    var p :| p in Sidecars(tree) && Hydrated(fs, medias, tree, p, blob);
    var n := TidySidecar(tree, fs.inodes, slots, p);
  }

  lemma EntryNamed(tree: Tree, inodes: seq<Content>, slots: Slots, n: string)
    requires Layout(slots) && Tidy(tree, inodes, slots) && n in slots && EntryIn(tree, inodes, slots[n]).Some?
    ensures EntryIn(tree, inodes, slots[n]).value.meta.name == n
  {
    assert ProperSlot(slots[n]) && Shelved(tree, inodes, n, slots[n]);
  }

  /** The scan of a tidy tree recovers exactly its entries, one generation per name. */
  lemma ScanRecovers(fs: Fs, medias: seq<Handle>, tree: Tree, slots: Slots, objects: Objects, live: Live)
    requires Layout(slots) && Tidy(tree, fs.inodes, slots)
    requires Holds(fs, medias, tree, Sidecars(tree), objects, live)
    ensures forall n :: n in slots ==> Recovered(fs, medias, EntryIn(tree, fs.inodes, slots[n]), n, objects, live)
    ensures forall n :: n in live ==> n in slots
    ensures forall key :: key in objects ==> key.name in live && live[key.name] == key.generation
  {
    hide Hydration, Found, Layout, NoStrayFiles, NoStrayDirs, Unshared, StagedMedia, Labelled, Scanned;
    forall n | n in slots && EntryIn(tree, fs.inodes, slots[n]).Some?
      ensures n in live && Key(n, EntryIn(tree, fs.inodes, slots[n]).value.meta.generation) in objects
    {
      EntrySidecar(tree, fs.inodes, slots, n);
      EntryNamed(tree, fs.inodes, slots, n);
    }
    forall key | key in objects
      ensures key.name in slots && EntryIn(tree, fs.inodes, slots[key.name]).Some?
      ensures EntryIn(tree, fs.inodes, slots[key.name]).value.meta == objects[key].meta
      ensures Recovered(fs, medias, EntryIn(tree, fs.inodes, slots[key.name]), key.name, objects, live[key.name := key.generation])
    {
      FoundOnTidy(fs, medias, tree, slots, objects[key]);
    }
    assert forall n :: n in live ==> Key(n, live[n]) in objects;
  }
}
