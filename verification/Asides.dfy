/** What the store keeps beside the live objects: soft-deleted generations, and folders. */
module Asides {

  import opened Database
  import opened FileStore
  import opened Pathing
  import opened Posix
  import opened Resources
  import opened Snapshots
  import opened Wrappers

  /** Where they are, in the directory `.gcs` of their bucket, and the bucket's own sidecar and the uploads with them. */
  lemma Places(uploadId: string, generation: nat, folder: string)
    ensures BUCKET_JSON == [Text(".gcs"), Text("bucket.json")]
    ensures StagingPath(uploadId) == [Text(".gcs"), Text("uploads"), Text(uploadId)]
    ensures SoftDir(generation) == [Text(".gcs"), Text("soft_deleted"), Text(Decimal(generation))]
    ensures FolderPath(folder) == [Text(".gcs"), Text("folders"), Digest(folder, ".json")]
    ensures forall other: nat :: SoftDir(other) == SoftDir(generation) ==> other == generation
  {
    forall other: nat | SoftDir(other) == SoftDir(generation)
      ensures other == generation
    {
      assert SoftDir(other)[2] == SoftDir(generation)[2];
      DecimalInjective(other, generation);
    }
  }

  lemma {:induction false} DecimalInjective(m: nat, n: nat)
    requires Decimal(m) == Decimal(n)
    ensures m == n
  {
    var s, t := Decimal(m), Decimal(n);
    assert s[|s| - 1] == "0123456789"[m % 10] && t[|t| - 1] == "0123456789"[n % 10];
    SameDigit(m % 10, n % 10);
    assert s[..|s| - 1] == t[..|t| - 1];
    if m >= 10 && n >= 10 {
      DecimalInjective(m / 10, n / 10);
    }
  }

  lemma SameDigit(i: nat, j: nat)
    requires i < 10 && j < 10 && "0123456789"[i] == "0123456789"[j]
    ensures i == j
  {
  }

  /** Every name of every bucket leads where it did, but for these of one bucket. */
  ghost predicate OthersStay(before: Fs, after: Fs, b: string, paths: set<Path>) {
    forall place: Place :: !(place.bucket == b && place.path in paths) ==> FileAt(after, place) == FileAt(before, place)
  }

  lemma MakeDirsStays(fs: Fs, b: string, dir: Path)
    ensures var r := MakeDirs(fs, b, dir); r.Ok? ==> OthersStay(fs, r.value, b, {}) && r.value.inodes == fs.inodes
  {
  }

  lemma WriteStays(fs: Fs, place: Place, content: Content)
    requires place.path != []
    ensures var r := WriteAtomic(fs, place, content);
            r.Ok? ==> OthersStay(fs, r.value, place.bucket, {place.path}) && ContentAt(r.value, place) == Some(content)
                      && fs.inodes <= r.value.inodes
  {
  }

  lemma DropStays(fs: Fs, place: Place)
    ensures OthersStay(fs, DropName(fs, place), place.bucket, {place.path}) && FileAt(DropName(fs, place), place) == None
    ensures DropName(fs, place).inodes == fs.inodes
  {
  }

  lemma MoveStays(fs: Fs, b: string, source: Path, destination: Path)
    requires destination != [] && source != destination && FileAt(fs, Place(b, destination)) == None
    ensures var r := MoveQuiet(fs, Place(b, source), Place(b, destination));
            r.Ok? ==>
              && OthersStay(fs, r.value, b, {source, destination}) && r.value.inodes == fs.inodes
              && FileAt(r.value, Place(b, source)) == None
              && FileAt(r.value, Place(b, destination)) == FileAt(fs, Place(b, source))
  {
  }

  /**
   A soft delete: the inode of the media is under the directory of its generation, with a sidecar that has
   the metadata; both names of the live object are gone; every other name leads where it did.
   */
  lemma SoftDeletes(store: Store, b: string, slot: Slot, blob: Blob)
    requires slot.media != [] && slot.sidecar != [] && slot.media != slot.sidecar
    requires var dir := SoftDir(blob.meta.generation);
             && !(dir <= slot.media) && !(dir <= slot.sidecar) && FileAt(store.fs, Place(b, dir + [Text("media")])) == None
    ensures var r, dir := TellSoftDelete(store, b, slot, blob), SoftDir(blob.meta.generation);
            r.Ok? ==>
              && FileAt(r.value.fs, Place(b, dir + [Text("media")])) == FileAt(store.fs, Place(b, slot.media))
              && ContentAt(r.value.fs, Place(b, dir + [Text("meta.gcsmeta")])) == Some(ObjectSidecar(blob.meta.name, blob.meta))
              && FileAt(r.value.fs, Place(b, slot.media)) == None && FileAt(r.value.fs, Place(b, slot.sidecar)) == None
              && r.value.medias == store.medias && store.fs.inodes <= r.value.fs.inodes
              && OthersStay(store.fs, r.value.fs, b,
                            {slot.media, slot.sidecar, dir + [Text("media")], dir + [Text("meta.gcsmeta")]})
  {
    hide MakeDirs, MoveQuiet, WriteAtomic, DropName, OpenDir, ContentAt;
    var dir := SoftDir(blob.meta.generation);
    var media, meta := dir + [Text("media")], dir + [Text("meta.gcsmeta")];
    assert media[3] != meta[3] && dir <= media && dir <= meta;
    var r := TellSoftDelete(store, b, slot, blob);
    if r.Ok? {
      MakeDirsStays(store.fs, b, dir);
      var made := MakeDirs(store.fs, b, dir).value;
      MoveStays(made, b, slot.media, media);
      var moved := MoveQuiet(made, Place(b, slot.media), Place(b, media)).value;
      WriteStays(moved, Place(b, meta), ObjectSidecar(blob.meta.name, blob.meta));
      var written := WriteAtomic(moved, Place(b, meta), ObjectSidecar(blob.meta.name, blob.meta)).value;
      DropStays(written, Place(b, slot.sidecar));
      SameContent(written, r.value.fs, Place(b, meta));
    }
  }

  lemma SameContent(fs: Fs, after: Fs, place: Place)
    requires FileAt(after, place) == FileAt(fs, place) && after.inodes == fs.inodes
    ensures ContentAt(after, place) == ContentAt(fs, place)
  {
  }

  /** A purge takes what the soft delete of that generation left, and leaves the live object and other generations. */
  lemma PurgeTakes(store: Store, b: string, generation: nat)
    ensures var after, dir := TellPurge(store, b, generation), SoftDir(generation);
            forall place: Place :: FileAt(after.fs, place) ==
              if place.bucket == b && dir <= place.path && b in store.fs.trees && dir in store.fs.trees[b].dirs then None
              else FileAt(store.fs, place)
  {
  }

  /** A folder is an envelope with its name, under a path that is its own. */
  lemma FolderKept(store: Store, b: string, folder: string)
    ensures var r := WriteFolder(store, b, folder);
            r.Ok? ==> ContentAt(r.value.fs, Place(b, FolderPath(folder))) == Some(FolderEnvelope(folder))
                      && OthersStay(store.fs, r.value.fs, b, {FolderPath(folder)})
    ensures var r := RemoveFolder(store, b, folder);
            r.Ok? ==> FileAt(r.value.fs, Place(b, FolderPath(folder))) == None
                      && OthersStay(store.fs, r.value.fs, b, {FolderPath(folder)})
    ensures forall other :: FolderPath(other) == FolderPath(folder) ==> other == folder
  {
    hide MakeDirs, WriteAtomic, DropName, ContentAt;
    var made := MakeDirs(store.fs, b, FOLDERS_DIR);
    MakeDirsStays(store.fs, b, FOLDERS_DIR);
    if made.Ok? {
      WriteStays(made.value, Place(b, FolderPath(folder)), FolderEnvelope(folder));
    }
    DropStays(store.fs, Place(b, FolderPath(folder)));
    forall other | FolderPath(other) == FolderPath(folder)
      ensures other == folder
    {
      assert FolderPath(other)[2] == FolderPath(folder)[2];
    }
  }

  /** A rename takes the old envelope and writes the new one, in the bucket of the old name. */
  lemma FolderMoves(store: Store, source: string, destination: string)
    requires source != destination
    ensures var r, b := TellFolderRename(store, source, destination), FolderBucket(source);
            r.Ok? ==> FileAt(r.value.fs, Place(b, FolderPath(source))) == None
                      && ContentAt(r.value.fs, Place(b, FolderPath(destination))) == Some(FolderEnvelope(destination))
                      && OthersStay(store.fs, r.value.fs, b, {FolderPath(source), FolderPath(destination)})
  {
    hide WriteFolder, RemoveFolder, FolderBucket, FolderPath, ContentAt;
    var b := FolderBucket(source);
    FolderKept(store, b, source);
    FolderKept(store, b, destination);
    if RemoveFolder(store, b, source).Ok? {
      FolderKept(RemoveFolder(store, b, source).value, b, destination);
    }
  }

  // ---- What is told is done ----

  /** The names of the bucket that show a notification was carried out. */
  ghost predicate Shows(before: Store, after: Store, note: Note) {
    match note
    case BucketInserted(bucket) => ContentAt(after.fs, Place(bucket.name, BUCKET_JSON)) == Some(BucketSidecar(bucket))
    case BucketUpdated(bucket) => ContentAt(after.fs, Place(bucket.name, BUCKET_JSON)) == Some(BucketSidecar(bucket))
    case BucketDeleted(name) => name !in after.fs.trees
    case ObjectInserted(b, blob) =>
      && ContentAt(after.fs, Place(b, SidecarPath(blob.meta.name))) == Some(ObjectSidecar(blob.meta.name, blob.meta))
      && (blob.media.InMemory? ==> ContentAt(after.fs, Place(b, MediaPath(blob.meta.name))) == Some(Content.Media(blob.media.bytes)))
    case ObjectUpdated(b, blob) =>
      ContentAt(after.fs, Place(b, SidecarPath(blob.meta.name))) == Some(ObjectSidecar(blob.meta.name, blob.meta))
    case ObjectDeleted(b, key) => Unnamed(after.fs, b, key.name)
    case ObjectSoftDeleted(b, blob) =>
      var dir := SoftDir(blob.meta.generation);
      && ContentAt(after.fs, Place(b, dir + [Text("meta.gcsmeta")])) == Some(ObjectSidecar(blob.meta.name, blob.meta))
      && (FileAt(before.fs, Place(b, dir + [Text("media")])) == None ==>
            && Unnamed(after.fs, b, blob.meta.name)
            && FileAt(after.fs, Place(b, dir + [Text("media")])) == FileAt(before.fs, Place(b, MediaPath(blob.meta.name))))
    case ObjectPurged(b, key) =>
      b in before.fs.trees && SoftDir(key.generation) in before.fs.trees[b].dirs ==>
        forall rest: Path :: FileAt(after.fs, Place(b, SoftDir(key.generation) + rest)) == None
    case FolderInserted(name, _) => ContentAt(after.fs, Place(FolderBucket(name), FolderPath(name))) == Some(FolderEnvelope(name))
    case FolderDeleted(name) => FileAt(after.fs, Place(FolderBucket(name), FolderPath(name))) == None
    case FolderRenamed(source, destination, _) =>
      && ContentAt(after.fs, Place(FolderBucket(source), FolderPath(destination))) == Some(FolderEnvelope(destination))
      && (source != destination ==> FileAt(after.fs, Place(FolderBucket(source), FolderPath(source))) == None)
    case Cleared => after.fs.trees == map[]
  }

  ghost predicate Unnamed(fs: Fs, b: string, name: string) {
    FileAt(fs, Place(b, MediaPath(name))) == None && FileAt(fs, Place(b, SidecarPath(name))) == None
  }

  lemma BucketShows(store: Store, bucket: BucketMeta)
    ensures var r := TellBucket(store, bucket);
            r.Ok? ==> ContentAt(r.value.fs, Place(bucket.name, BUCKET_JSON)) == Some(BucketSidecar(bucket))
    ensures var r := TellBucketUpdate(store, bucket);
            r.Ok? ==> ContentAt(r.value.fs, Place(bucket.name, BUCKET_JSON)) == Some(BucketSidecar(bucket))
  {
    hide MakeDirs, WriteAtomic, ContentAt, MakeSubdirs, WithTree;
    var made := MakeDirs(WithTree(store.fs, bucket.name), bucket.name, GCS_DIR);
    if made.Ok? && bucket.name in made.value.trees {
      WriteStays(MakeSubdirs(made.value, bucket.name), Place(bucket.name, BUCKET_JSON), BucketSidecar(bucket));
    }
    MadeTree(WithTree(store.fs, bucket.name), bucket.name);
    var again := MakeDirs(store.fs, bucket.name, GCS_DIR);
    if again.Ok? {
      WriteStays(again.value, Place(bucket.name, BUCKET_JSON), BucketSidecar(bucket));
    }
  }

  lemma MadeTree(fs: Fs, b: string)
    ensures MakeDirs(fs, b, GCS_DIR).Ok? ==> b in MakeDirs(fs, b, GCS_DIR).value.trees
  {
  }

  lemma InsertShows(store: Store, b: string, slot: Slot, blob: Blob)
    requires slot.media != [] && slot.sidecar != [] && slot.media != slot.sidecar
    ensures var r := TellInsert(store, b, slot, blob);
            r.Ok? ==>
              && ContentAt(r.value.fs, Place(b, slot.sidecar)) == Some(ObjectSidecar(blob.meta.name, blob.meta))
              && (blob.media.InMemory? ==> ContentAt(r.value.fs, Place(b, slot.media)) == Some(Content.Media(blob.media.bytes)))
    ensures var r := TellUpdate(store, b, slot, blob);
            r.Ok? ==> ContentAt(r.value.fs, Place(b, slot.sidecar)) == Some(ObjectSidecar(blob.meta.name, blob.meta))
  {
    hide MakeDirs, WriteAtomic, ContentAt, GuardCollision, Settle, OpenDir, DropName;
    var meta := ObjectSidecar(blob.meta.name, blob.meta);
    var made := MakeDirs(store.fs, b, Dir(slot.media));
    if TellInsert(store, b, slot, blob).Ok? {
      var deposited := Deposit(store.(fs := made.value), Place(b, slot.media), blob.media, blob.upload).value;
      WriteStays(deposited.fs, Place(b, slot.sidecar), meta);
      if blob.media.InMemory? {
        WriteStays(made.value, Place(b, slot.media), Content.Media(blob.media.bytes));
        ContentStays(deposited.fs, TellInsert(store, b, slot, blob).value.fs, Place(b, slot.media));
      }
    }
    if TellUpdate(store, b, slot, blob).Ok? {
      WriteStays(Settle(store, blob).value.fs, Place(b, slot.sidecar), meta);
    }
  }

  lemma ContentStays(fs: Fs, after: Fs, place: Place)
    requires FileAt(after, place) == FileAt(fs, place) && fs.inodes <= after.inodes
    ensures ContentAt(fs, place).Some? ==> ContentAt(after, place) == ContentAt(fs, place)
  {
  }

  lemma DeleteShows(store: Store, b: string, slot: Slot)
    requires slot.media != [] && slot.sidecar != []
    ensures var r := TellDelete(store, b, slot);
            r.Ok? ==> FileAt(r.value.fs, Place(b, slot.media)) == None && FileAt(r.value.fs, Place(b, slot.sidecar)) == None
  {
    hide DropName, OpenDir;
    var one := DropName(store.fs, Place(b, slot.media));
    DropStays(store.fs, Place(b, slot.media));
    DropStays(one, Place(b, slot.sidecar));
  }

  lemma SoftShows(store: Store, b: string, blob: Blob)
    ensures var r, dir := TellSoftDelete(store, b, SlotOf(blob.meta.name), blob), SoftDir(blob.meta.generation);
            r.Ok? ==> Shows(store, r.value, ObjectSoftDeleted(b, blob))
  {
    hide TellSoftDelete, MediaPath, SidecarPath, ContentAt;
    var name, dir := blob.meta.name, SoftDir(blob.meta.generation);
    OutsideSoft(name, blob.meta.generation);
    SoftMetaKept(store, b, SlotOf(name), blob);
    if FileAt(store.fs, Place(b, dir + [Text("media")])) == None {
      SoftDeletes(store, b, SlotOf(name), blob);
    }
  }

  /** The sidecar of a soft-deleted generation is there, whatever was there before. */
  lemma SoftMetaKept(store: Store, b: string, slot: Slot, blob: Blob)
    requires slot.media != [] && slot.sidecar != [] && !(SoftDir(blob.meta.generation) <= slot.sidecar)
    ensures var r, dir := TellSoftDelete(store, b, slot, blob), SoftDir(blob.meta.generation);
            r.Ok? ==> ContentAt(r.value.fs, Place(b, dir + [Text("meta.gcsmeta")])) == Some(ObjectSidecar(blob.meta.name, blob.meta))
  {
    hide MakeDirs, MoveQuiet, WriteAtomic, DropName, OpenDir, ContentAt;
    var dir := SoftDir(blob.meta.generation);
    var meta := dir + [Text("meta.gcsmeta")];
    assert dir <= meta;
    var r := TellSoftDelete(store, b, slot, blob);
    if r.Ok? {
      var made := MakeDirs(store.fs, b, dir).value;
      var moved := MoveQuiet(made, Place(b, slot.media), Place(b, dir + [Text("media")])).value;
      WriteStays(moved, Place(b, meta), ObjectSidecar(blob.meta.name, blob.meta));
      var written := WriteAtomic(moved, Place(b, meta), ObjectSidecar(blob.meta.name, blob.meta)).value;
      DropStays(written, Place(b, slot.sidecar));
      SameContent(written, r.value.fs, Place(b, meta));
    }
  }

  /** No object's files are among the soft-deleted ones, and its media and its sidecar are two. */
  lemma OutsideSoft(name: string, generation: nat)
    ensures !(SoftDir(generation) <= MediaPath(name)) && !(SoftDir(generation) <= SidecarPath(name))
    ensures MediaPath(name) != SidecarPath(name)
  {
    LayoutIsCollisionFree(name, name);
    var p := MediaPath(name);
    if !NeedsOverflow(name) {
      NaturalPathsAreContained(name);
      if p[0] == GCS {
        DotGcs();
      }
      SidecarFirst(p);
    }
  }

  lemma SidecarFirst(p: Path)
    requires p != [] && p[0].Text?
    ensures var q := Sibling(p, WithSuffix(Base(p))); |q| == |p| && (|p| > 1 ==> q[0] == p[0])
  {
  }

  /** A notification that the store carries out shows on the disk. */
  lemma TellShows(store: Store, note: Note)
    ensures var r := Tell(store, note); r.Ok? ==> Shows(store, r.value, note)
  {
    hide TellBucket, TellBucketUpdate, TellInsert, TellUpdate, TellDelete, TellSoftDelete, WriteFolder, RemoveFolder, TellFolderRename,
         MediaPath, SidecarPath, ContentAt, FolderBucket, FolderPath;
    match note
    case BucketInserted(bucket) => BucketShows(store, bucket);
    case BucketUpdated(bucket) => BucketShows(store, bucket);
    case ObjectInserted(b, blob) =>
      LayoutIsCollisionFree(blob.meta.name, blob.meta.name);
      InsertShows(store, b, SlotOf(blob.meta.name), blob);
    case ObjectUpdated(b, blob) =>
      LayoutIsCollisionFree(blob.meta.name, blob.meta.name);
      InsertShows(store, b, SlotOf(blob.meta.name), blob);
    case ObjectDeleted(b, key) => DeleteShows(store, b, SlotOf(key.name));
    case ObjectSoftDeleted(b, blob) => SoftShows(store, b, blob);
    case ObjectPurged(b, key) => PurgeTakes(store, b, key.generation);
    case FolderInserted(name, _) => FolderKept(store, FolderBucket(name), name);
    case FolderDeleted(name) => FolderKept(store, FolderBucket(name), name);
    case FolderRenamed(source, destination, _) =>
      if source != destination { FolderMoves(store, source, destination); }
      else { RenamedToItself(store, source); }
    case _ =>
  }

  lemma RenamedToItself(store: Store, folder: string)
    ensures var r, b := TellFolderRename(store, folder, folder), FolderBucket(folder);
            r.Ok? ==> ContentAt(r.value.fs, Place(b, FolderPath(folder))) == Some(FolderEnvelope(folder))
  {
    hide WriteFolder, RemoveFolder, FolderBucket, FolderPath, ContentAt;
    var b := FolderBucket(folder);
    if RemoveFolder(store, b, folder).Ok? {
      FolderKept(RemoveFolder(store, b, folder).value, b, folder);
    }
  }
}
