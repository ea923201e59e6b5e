/** Whole runs, and what a restart after them recovers. */
module Restart {

  import opened Bytes
  import opened Checksums
  import opened Database
  import opened FileMedia
  import opened FileStore
  import opened Layouts
  import opened Mirroring
  import opened Placing
  import opened Posix
  import opened Rebuild
  import opened Resources
  import opened Shelves
  import opened SoundSteps
  import opened StoreSteps
  import opened WorldRuns
  import opened Worlds
  import opened Wrappers

  const START := World(EMPTY, Store(Fs(map[], [], []), []), [], 0, map[], map[])

  /** Every step is in scope when it is taken. */
  ghost predicate LegalRun(w: World, slots: Slots, steps: seq<Step>)
    requires Named(slots)
    decreases |steps|
  {
    steps == [] ||
    (Legal(w, slots, steps[0]) && var next := Next(w, slots, steps[0]); next.Ok? ==> LegalRun(next.value, slots, steps[1..]))
  }

  ghost function Run(w: World, slots: Slots, steps: seq<Step>): Outcome<World>
    requires Named(slots) && LegalRun(w, slots, steps)
    decreases |steps|
  {
    if steps == [] then Ok(w)
    else
      var next :- Next(w, slots, steps[0]);
      Run(next, slots, steps[1..])
  }

  lemma StartSound(slots: Slots)
    requires Layout(slots)
    ensures Sound(START, slots)
    ensures Named(slots) ==> Placed(START, slots)
  {
    hide Layout;
  }

  /** Over every run in scope the store never fails, and the world stays sound. */
  lemma {:induction false} RunSound(w: World, slots: Slots, steps: seq<Step>)
    requires Layout(slots) && Sound(w, slots) && Named(slots) && Placed(w, slots) && LegalRun(w, slots, steps)
    ensures var r := Run(w, slots, steps);
            r.Ok? && Sound(r.value, slots) && Placed(r.value, slots) && Evolves(w.store, r.value.store)
    decreases |steps|
  {
    hide Sound, Layout, Named, Next, Legal, Evolves, Placed;
    if steps == [] {
      EvolvesNot(w.store);
    } else {
      StepSound(w, slots, steps[0]);
      StepPlaced(w, slots, steps[0]);
      var next := Next(w, slots, steps[0]).value;
      RunSound(next, slots, steps[1..]);
      EvolvesOn(w.store, next.store, Run(next, slots, steps[1..]).value.store);
    }
  }

  /** A run and one step more. */
  lemma {:induction false} StepOn(w: World, slots: Slots, steps: seq<Step>, middle: World, step: Step, next: World)
    requires Named(slots) && LegalRun(w, slots, steps) && Run(w, slots, steps) == Ok(middle)
    requires Legal(middle, slots, step) && Next(middle, slots, step) == Ok(next)
    ensures LegalRun(w, slots, steps + [step]) && Run(w, slots, steps + [step]) == Ok(next)
    decreases |steps|
  {
    hide Legal, Next, Named;
    if steps == [] {
      assert steps + [step] == [step] && [step][1..] == [];
    } else {
      assert (steps + [step])[1..] == steps[1..] + [step];
      StepOn(Next(w, slots, steps[0]).value, slots, steps[1..], middle, step, next);
    }
  }

  // ---- A restart ----

  /** What is left of the store when the process is gone. */
  function Crashed(store: Store): Store {
    Store(store.fs.(descriptors := []), [])
  }

  /** Metadata that a restart takes as it is gives the right checksums, or is of the kind that is computed anew. */
  ghost predicate Trustworthy(meta: ObjectMeta, bytes: Bytes) {
    (meta.size > 0 && meta.md5 == Md5([])) || (meta.size == |bytes| && meta.crc == Crc32c(bytes, 0) && meta.md5 == Md5(bytes))
  }

  /**
   A live object after a restart: its bytes, under the metadata that the store was last told. So its
   generation, or all its metadata, is back exactly when that is what the store was last told. Its media
   has the right checksums exactly when that metadata is trustworthy; of an object whose own metadata the
   store has it is so exactly when it knows of some bytes or there are none.
   */
  ghost predicate Back(w: World, b: string, n: string, store: Store, objects: map<Key, Blob>, live: map<string, nat>) {
    match Current(w.index, b, n)
    case None => n !in live
    case Some(blob) =>
      var known := Known(w.behind, b, blob);
      && n in live && live[n] == known.generation && Key(n, live[n]) in objects
      && BlobBack(w.store, blob, known, store, objects[Key(n, live[n])])
      && (known == blob.meta ==> (Trustworthy(known, BytesBehind(w.store, blob.media)) <==>
                                  blob.meta.size > 0 || BytesBehind(w.store, blob.media) == []))
  }

  ghost predicate BlobBack(before: Store, blob: Blob, known: ObjectMeta, store: Store, back: Blob) {
    && back.meta == known && !back.upload && back.media.OnDisk? && back.media.id < |store.medias|
    && var bytes, h := BytesBehind(before, blob.media), store.medias[back.media.id];
       && MediaBytes(store, back.media.id) == bytes
       && (Rolling(h, bytes) <==> Trustworthy(known, bytes))
  }

  /** The index after a restart: the buckets as the store was last told, and the live objects. */
  ghost predicate Recovers(w: World, slots: Slots, index: Index, store: Store) {
    && index.buckets == w.labels && index.buckets.Keys == index.objects.Keys == index.live.Keys == w.index.buckets.Keys
    && forall b :: b in index.buckets ==> BucketRecovers(w, slots, b, store, index.objects[b], index.live[b])
  }

  /** Every name is back as it was, no other name is there, and only live generations are. */
  ghost predicate BucketRecovers(w: World, slots: Slots, b: string, store: Store, objects: map<Key, Blob>, live: map<string, nat>) {
    && (forall n :: n in slots ==> Back(w, b, n, store, objects, live))
    && (forall n :: n in live ==> n in slots)
    && (forall key :: key in objects ==> key.name in live && live[key.name] == key.generation)
  }

  /** The media a live object gets back. */
  lemma HydratesBlob(before: Store, store: Store, blob: Blob, known: ObjectMeta, inode: Inode, back: Blob)
    requires SameInode(before, blob.media, inode) && Handles(before)
    requires back.meta == known && !back.upload && back.media.OnDisk? && back.media.id < |store.medias|
    requires Hydration(store.fs, store.medias[back.media.id], known, inode) && store.fs.inodes == before.fs.inodes
    ensures BlobBack(before, blob, known, store, back)
  {
    hide Handles, Crc32c;
    var bytes, h := BytesBehind(before, blob.media), store.medias[back.media.id];
    assert before.fs.inodes[inode] == Content.Media(bytes) by {
      if blob.media.OnDisk? {
        DiskBytes(before, blob.media.id, inode);
      }
    }
  }

  /** The metadata of an object tells the truth about its bytes, or it is an appendable one's. */
  lemma OwnTrust(meta: ObjectMeta, bytes: Bytes)
    requires Measured(meta, bytes)
    ensures Trustworthy(meta, bytes) <==> meta.size > 0 || bytes == []
  {
    Crc32cOfNothing(0);
  }

  lemma DiskBytes(store: Store, id: nat, inode: Inode)
    requires Handles(store) && MediaInode(store, id) == Some(inode)
    ensures inode < |store.fs.inodes| && store.fs.inodes[inode] == Content.Media(MediaBytes(store, id))
  {
    assert HandleSound(store.fs, store.medias[id]);
  }

  lemma NameBack(w: World, slots: Slots, b: string, n: string, store: Store, objects: map<Key, Blob>, live: map<string, nat>)
    requires Layout(slots) && Sound(w, slots) && b in w.index.buckets && n in slots && store.fs.inodes == w.store.fs.inodes
    requires Recovered(store.fs, store.medias, EntryAt(w.store.fs, b, slots[n]), n, objects, live)
    ensures Back(w, b, n, store, objects, live)
  {
    hide Sound, Layout, Hydration, BlobSound, SameInode, EntryAt, BlobBack, Current, Handles;
    Parts(w, slots);
    MirrorThere(w, slots, b, n);
    var current := Current(w.index, b, n);
    if current.Some? {
      LiveBlob(w, slots, b, n);
      var entry := EntryAt(w.store.fs, b, slots[n]).value;
      var known := Known(w.behind, b, current.value);
      HydratesBlob(w.store, store, current.value, known, entry.inode, objects[Key(n, entry.meta.generation)]);
      LiveMeasured(w, slots, b, n);
      if known == current.value.meta {
        OwnTrust(known, BytesBehind(w.store, current.value.media));
      }
    }
  }

  lemma LiveMeasured(w: World, slots: Slots, b: string, n: string)
    requires Layout(slots) && Sound(w, slots) && b in w.index.buckets && n in slots && Current(w.index, b, n).Some?
    ensures var blob := Current(w.index, b, n).value; Measured(blob.meta, BytesBehind(w.store, blob.media))
  {
    hide Sound, Layout, Measured, Current, StagedNow, SettledNow, WriterSound;
    LiveBlob(w, slots, b, n);
  }

  lemma AllScannable(fs: Fs, labels: map<string, BucketMeta>, slots: Slots)
    requires Layout(slots) && TreesSound(fs, labels, slots)
    requires forall b :: b in labels ==> labels[b].name == b
    ensures SelfLabelled(fs) && forall b :: b in fs.trees ==> Scannable(fs, b)
  {
    hide Layout, Clean, NoStrayFiles, NoStrayDirs, AllShelved, Unshared, StagedMedia;
    forall b | b in fs.trees
      ensures Scannable(fs, b)
    {
      TidyIsClean(fs.trees[b], fs.inodes, slots);
    }
  }

  /** The scan of the trees of a sound world. */
  lemma RebuiltIsBack(w: World, slots: Slots, index: Index, store: Store)
    requires Layout(slots) && Sound(w, slots) && store.fs.trees == w.store.fs.trees && store.fs.inodes == w.store.fs.inodes
    requires Rebuilt(store, index, store.fs.trees.Keys)
    ensures Recovers(w, slots, index, store)
  {
    hide Sound, Layout, BucketRecovers, Rebuilt;
    Shape(w, slots);
    RebuiltKeys(index, store);
    forall b | b in w.store.fs.trees
      ensures b in index.buckets && index.buckets[b] == w.labels[b]
      ensures b in index.objects && b in index.live && BucketRecovers(w, slots, b, store, index.objects[b], index.live[b])
    {
      BucketBack(w, slots, index, store, b);
    }
    assert index.buckets.Keys == w.index.buckets.Keys;
  }

  lemma RebuiltKeys(index: Index, store: Store)
    requires Rebuilt(store, index, store.fs.trees.Keys)
    ensures index.buckets.Keys == index.objects.Keys == index.live.Keys && index.buckets.Keys <= store.fs.trees.Keys
  {
    hide BucketRebuilt;
  }

  lemma BucketBack(w: World, slots: Slots, index: Index, store: Store, b: string)
    requires Layout(slots) && Sound(w, slots) && store.fs.trees == w.store.fs.trees && store.fs.inodes == w.store.fs.inodes
    requires Rebuilt(store, index, store.fs.trees.Keys) && b in w.store.fs.trees
    ensures b in w.index.buckets && b in w.labels && b in index.buckets && index.buckets[b] == w.labels[b]
    ensures b in index.objects && b in index.live && BucketRecovers(w, slots, b, store, index.objects[b], index.live[b])
  {
    hide Sound, Layout, Back, Recovered, Rebuild.Holds, EntryIn, Current, Mirror, Handles, BlobsSound, IndexSound, OwnersSound, UploadsSound,
         NoStrayFiles, NoStrayDirs, AllShelved, Unshared, StagedMedia;
    Shape(w, slots);
    Parts(w, slots);
    assert BucketRebuilt(store, b, index.buckets[b], index.objects[b], index.live[b]);
    ScanRecovers(store.fs, store.medias, store.fs.trees[b], slots, index.objects[b], index.live[b]);
    forall n | n in slots
      ensures Back(w, b, n, store, index.objects[b], index.live[b])
    {
      NameBack(w, slots, b, n, store, index.objects[b], index.live[b]);
    }
  }

  /**
   After any run over names that can share a bucket on disk the startup scan succeeds, and recovers
   the buckets and the live objects as far as the store was told. `left` is what the process leaves;
   the scan changes nothing of it, so that after another crash it recovers the same.
   */
  method RunAndRestart(ghost names: set<string>, ghost steps: seq<Step>, ghost w: World, left: Store)
    returns (r: Outcome<(Index, Store)>)
    requires Compatible(names) && LegalRun(START, SlotsOf(names), steps) && Run(START, SlotsOf(names), steps) == Ok(w)
    requires left == Crashed(w.store)
    ensures r.Ok? && Recovers(w, SlotsOf(names), r.value.0, r.value.1) && Crashed(r.value.1) == left
  {
    hide Sound, Placed, Layout, Named, Run, LegalRun, Recovers, Evolves, TreesSound, Scannable, SelfLabelled, Rebuilt, Compatible, SlotsOf;
    ghost var slots := SlotsOf(names);
    LayoutOf(names);
    SlotsNamed(slots);
    StartSound(slots);
    RunSound(START, slots, steps);
    Parts(w, slots);
    SameTrees(w.store.fs, left.fs, w.labels, slots);
    AllScannable(left.fs, w.labels, slots);
    r := RebuildIndex(left);
    RebuiltIsBack(w, slots, r.value.0, r.value.1);
  }

  lemma SameTrees(fs: Fs, after: Fs, labels: map<string, BucketMeta>, slots: Slots)
    requires Layout(slots) && TreesSound(fs, labels, slots) && after.trees == fs.trees && after.inodes == fs.inodes
    ensures TreesSound(after, labels, slots)
  {
    hide Layout, Tidy;
  }
}
