/**
 The store that mirrors the index onto a tree (testbench/filestore.py): what each notification does
 to the file system. Media are kept in a table and referred to by number, so that an object and an
 upload can share one.
 */
module FileStore {

  import opened Bytes
  import opened FileMedia
  import opened Pathing
  import opened Posix
  import opened Resources
  import opened Wrappers

  const UPLOADS := Text("uploads")
  const SOFT := Text("soft_deleted")
  const FOLDERS := Text("folders")
  const GCS_DIR: Path := [GCS]
  const BUCKET_JSON: Path := [GCS, Text("bucket.json")]
  const UPLOADS_DIR: Path := [GCS, UPLOADS]
  const FOLDERS_DIR: Path := [GCS, FOLDERS]
  const SUBDIRS: set<Path> := {[GCS, Text("generations")], [GCS, SOFT], UPLOADS_DIR, FOLDERS_DIR, [GCS, OVERFLOW]}

  datatype Store = Store(fs: Fs, medias: seq<Handle>)

  /** Where an object's bytes and metadata go. */
  datatype Slot = Slot(media: Path, sidecar: Path)

  function SlotOf(name: string): (slot: Slot)
    ensures slot.media != [] && slot.sidecar != []
  {
    Slot(MediaPath(name), SidecarPath(name))
  }

  function StagingPath(uploadId: string): Path {
    [GCS, UPLOADS, Text(uploadId)]
  }

  // ---- Buckets ----

  function WithTree(fs: Fs, bucket: string): Fs {
    if bucket in fs.trees then fs else fs.(trees := fs.trees[bucket := Tree(map[], {})])
  }

  /** `mkdir`, taking whatever is already there. */
  function MakeSubdirs(fs: Fs, bucket: string): Fs
    requires bucket in fs.trees
  {
    var tree := fs.trees[bucket];
    fs.(trees := fs.trees[bucket := tree.(dirs := tree.dirs + (SUBDIRS - tree.files.Keys))])
  }

  function TellBucket(store: Store, bucket: BucketMeta): Outcome<Store> {
    var made :- MakeDirs(WithTree(store.fs, bucket.name), bucket.name, GCS_DIR);
    var written :- WriteAtomic(MakeSubdirs(made, bucket.name), Place(bucket.name, BUCKET_JSON), BucketSidecar(bucket));
    Ok(store.(fs := written))
  }

  function TellBucketUpdate(store: Store, bucket: BucketMeta): Outcome<Store> {
    var made :- MakeDirs(store.fs, bucket.name, GCS_DIR);
    var written :- WriteAtomic(made, Place(bucket.name, BUCKET_JSON), BucketSidecar(bucket));
    Ok(store.(fs := written))
  }

  function TellBucketDelete(store: Store, bucket: string): Store {
    store.(fs := store.fs.(trees := store.fs.trees - {bucket}))
  }

  function TellClear(store: Store): Store {
    store.(fs := store.fs.(trees := map[]))
  }

  // ---- Objects ----

  /** A sidecar already there must carry the same true name. */
  function GuardCollision(fs: Fs, place: Place, name: string): Option<Error> {
    match ContentAt(fs, place)
    case None => None
    case Some(ObjectSidecar(trueName, _)) => if trueName != name then Some(Collision) else None
    case Some(BucketSidecar(bucket)) => if bucket.name != name then Some(Collision) else None
    case Some(Media(_)) => Some(Corrupt)
    case Some(FolderEnvelope(_)) => Some(Corrupt)
  }

  /** The bytes: linked while they still grow, promoted if staged, written if in memory. */
  function Deposit(store: Store, place: Place, media: MediaRef, growing: bool): Outcome<Store>
    requires place.path != []
  {
    match media
    case InMemory(bytes) =>
      var written :- WriteAtomic(store.fs, place, Media(bytes));
      Ok(store.(fs := written))
    case OnDisk(id) =>
      if id >= |store.medias| then Fail(BadDescriptor)
      else if growing then
        var linked :- LinkTo(DropName(store.fs, place), store.medias[id], place);
        Ok(store.(fs := linked))
      else
        var (promoted, sealed_) :- PromoteTo(store.fs, store.medias[id], place);
        Ok(Store(promoted, store.medias[id := sealed_]))
  }

  function TellInsert(store: Store, bucket: string, slot: Slot, blob: Blob): Outcome<Store>
    requires slot.media != [] && slot.sidecar != []
  {
    var made :- MakeDirs(store.fs, bucket, Dir(slot.media));
    var collision := GuardCollision(made, Place(bucket, slot.sidecar), blob.meta.name);
    if collision.Some? then Fail(collision.value)
    else
      var deposited :- Deposit(store.(fs := made), Place(bucket, slot.media), blob.media, blob.upload);
      var written :- WriteAtomic(deposited.fs, Place(bucket, slot.sidecar), ObjectSidecar(blob.meta.name, blob.meta));
      Ok(deposited.(fs := written))
  }

  /** Seal the media of a blob that no longer grows. */
  function Settle(store: Store, blob: Blob): Outcome<Store> {
    if blob.media.OnDisk? && blob.media.id < |store.medias| && store.medias[blob.media.id].staging.Some? && !blob.upload then
      var (unlinked, sealed_) :- SealOff(store.fs, store.medias[blob.media.id]);
      Ok(Store(unlinked, store.medias[blob.media.id := sealed_]))
    else Ok(store)
  }

  function TellUpdate(store: Store, bucket: string, slot: Slot, blob: Blob): Outcome<Store>
    requires slot.media != [] && slot.sidecar != []
  {
    var _ :- OpenDir(store.fs, bucket, Dir(slot.media));
    var settled :- Settle(store, blob);
    var written :- WriteAtomic(settled.fs, Place(bucket, slot.sidecar), ObjectSidecar(blob.meta.name, blob.meta));
    Ok(settled.(fs := written))
  }

  /** The names of the object go, whatever generation they hold. */
  function TellDelete(store: Store, bucket: string, slot: Slot): Outcome<Store>
    requires slot.media != [] && slot.sidecar != []
  {
    var _ :- OpenDir(store.fs, bucket, Dir(slot.media));
    Ok(store.(fs := DropName(DropName(store.fs, Place(bucket, slot.media)), Place(bucket, slot.sidecar))))
  }

  /** The directory of a soft-deleted generation; it does not depend on the name. */
  function SoftDir(generation: nat): (p: Path)
    ensures |p| == 3 && p[1] == SOFT
  {
    [GCS, SOFT, Text(Decimal(generation))]
  }

  /** The media moves, if it is there, and the metadata goes with it. */
  function TellSoftDelete(store: Store, bucket: string, slot: Slot, blob: Blob): Outcome<Store>
    requires slot.media != [] && slot.sidecar != []
  {
    var dir := SoftDir(blob.meta.generation);
    var made :- MakeDirs(store.fs, bucket, dir);
    var _ :- OpenDir(made, bucket, Dir(slot.media));
    var moved :- MoveQuiet(made, Place(bucket, slot.media), Place(bucket, dir + [Text("media")]));
    var written :- WriteAtomic(moved, Place(bucket, dir + [Text("meta.gcsmeta")]), ObjectSidecar(blob.meta.name, blob.meta));
    Ok(store.(fs := DropName(written, Place(bucket, slot.sidecar))))
  }

  function MoveQuiet(fs: Fs, source: Place, destination: Place): Outcome<Fs>
    requires destination.path != []
  {
    if FileAt(fs, source).None? then Ok(fs) else Rename(fs, source, destination)
  }

  function TellPurge(store: Store, bucket: string, generation: nat): Store {
    store.(fs := RemoveDir(store.fs, bucket, SoftDir(generation)))
  }

  // ---- Folders: one envelope each, named by the digest of the folder's name ----

  function FolderPath(folder: string): (p: Path)
    ensures |p| == 3 && p[1] == FOLDERS
  {
    [GCS, FOLDERS, Digest(folder, ".json")]
  }

  /** The bucket in a folder's full name, `projects/_/buckets/<bucket>/folders/<id>/`. */
  function FolderBucket(folder: string): string {
    var prefix := "projects/_/buckets/";
    Split(if StartsWith(folder, prefix) then folder[|prefix|..] else folder)[0]
  }

  function WriteFolder(store: Store, bucket: string, folder: string): Outcome<Store> {
    var made :- MakeDirs(store.fs, bucket, FOLDERS_DIR);
    var written :- WriteAtomic(made, Place(bucket, FolderPath(folder)), FolderEnvelope(folder));
    Ok(store.(fs := written))
  }

  function RemoveFolder(store: Store, bucket: string, folder: string): Outcome<Store> {
    var _ :- OpenDir(store.fs, bucket, FOLDERS_DIR);
    Ok(store.(fs := DropName(store.fs, Place(bucket, FolderPath(folder)))))
  }

  /** The new name need not be a full one: it stays in the bucket of the old one. */
  function TellFolderRename(store: Store, source: string, destination: string): Outcome<Store> {
    var removed :- RemoveFolder(store, FolderBucket(source), source);
    WriteFolder(removed, FolderBucket(source), destination)
  }

  /** A media to upload into, under `.gcs/uploads`; its number is the next one. */
  function StageUpload(store: Store, bucket: string, uploadId: string): Outcome<Store> {
    var made :- MakeDirs(store.fs, bucket, UPLOADS_DIR);
    var (staged, handle) :- Stage(made, Place(bucket, StagingPath(uploadId)));
    Ok(Store(staged, store.medias + [handle]))
  }

  function Grow(store: Store, id: nat, data: Bytes): Outcome<Store> {
    if id >= |store.medias| then Fail(BadDescriptor)
    else
      var (written, grown) :- AppendTo(store.fs, store.medias[id], data);
      Ok(Store(written, store.medias[id := grown]))
  }

  function DropUpload(store: Store, bucket: string, uploadId: string): Outcome<Store> {
    var made :- MakeDirs(store.fs, bucket, UPLOADS_DIR);
    Ok(store.(fs := DropName(made, Place(bucket, StagingPath(uploadId)))))
  }

  // ---- The store, step by step ----

  class FileStore {
    var fs: Fs
    var medias: seq<Handle>

    ghost function State(): Store
      reads this
    {
      Store(fs, medias)
    }

    constructor (fs: Fs)
      ensures State() == Store(fs, [])
    {
      this.fs, this.medias := fs, [];
    }

    method InsertBucket(bucket: BucketMeta) returns (r: Option<Error>)
      modifies this
      ensures Does(TellBucket(old(State()), bucket), r, State())
    {
      fs := WithTree(fs, bucket.name);
      var made := MakeDirs(fs, bucket.name, GCS_DIR);
      if made.Fail? {
        return Some(made.error);
      }
      fs := MakeSubdirs(made.value, bucket.name);
      r := WriteFile(Place(bucket.name, BUCKET_JSON), BucketSidecar(bucket));
    }

    method UpdateBucket(bucket: BucketMeta) returns (r: Option<Error>)
      modifies this
      ensures Does(TellBucketUpdate(old(State()), bucket), r, State())
    {
      var made := MakeDirs(fs, bucket.name, GCS_DIR);
      if made.Fail? {
        return Some(made.error);
      }
      fs := made.value;
      r := WriteFile(Place(bucket.name, BUCKET_JSON), BucketSidecar(bucket));
    }

    /** Every name in the bucket goes; other buckets, open descriptors, what they read, and media stay. */
    method DeleteBucket(bucket: string)
      modifies this
      ensures State() == TellBucketDelete(old(State()), bucket)
      ensures forall place: Place :: FileAt(fs, place) == if place.bucket == bucket then None else FileAt(old(fs), place)
      ensures fs.inodes == old(fs).inodes && fs.descriptors == old(fs).descriptors && medias == old(medias)
    {
      fs := fs.(trees := fs.trees - {bucket});
    }

    /** Bucket after bucket, in the order they are listed. */
    method Clear()
      modifies this
      ensures State() == TellClear(old(State()))
    {
      while fs.trees != map[]
        invariant State() == old(State()).(fs := old(fs).(trees := fs.trees))
        decreases |fs.trees|
      {
        assert fs.trees.Keys != {};
        var bucket :| bucket in fs.trees;
        assert |fs.trees - {bucket}| < |fs.trees| by { assert (fs.trees - {bucket}).Keys < fs.trees.Keys; }
        DeleteBucket(bucket);
      }
    }

    method WriteFile(place: Place, content: Content) returns (r: Option<Error>)
      requires place.path != []
      modifies this`fs
      ensures var o := WriteAtomic(old(fs), place, content);
              r == ErrorOf(o) && fs == if o.Ok? then o.value else old(fs)
    {
      var written := WriteAtomic(fs, place, content);
      if written.Fail? {
        return Some(written.error);
      }
      fs := written.value;
      return None;
    }

    method InsertObject(bucket: string, blob: Blob) returns (r: Option<Error>)
      modifies this
      ensures Does(TellInsert(old(State()), bucket, SlotOf(blob.meta.name), blob), r, State())
    {
      var slot := SlotOf(blob.meta.name);
      r := PutObject(bucket, slot, blob);
    }

    method PutObject(bucket: string, slot: Slot, blob: Blob) returns (r: Option<Error>)
      requires slot.media != [] && slot.sidecar != []
      modifies this
      ensures Does(TellInsert(old(State()), bucket, slot, blob), r, State())
    {
      var made := MakeDirs(fs, bucket, Dir(slot.media));
      if made.Fail? {
        return Some(made.error);
      }
      fs := made.value;
      r := GuardCollision(fs, Place(bucket, slot.sidecar), blob.meta.name);
      if r.Some? {
        return;
      }
      r := PlaceMedia(Place(bucket, slot.media), blob.media, blob.upload);
      if r.Some? {
        return;
      }
      r := WriteFile(Place(bucket, slot.sidecar), ObjectSidecar(blob.meta.name, blob.meta));
    }

    method PlaceMedia(place: Place, media: MediaRef, growing: bool) returns (r: Option<Error>)
      requires place.path != []
      modifies this
      ensures Does(Deposit(old(State()), place, media, growing), r, State())
    {
      match media {
        case InMemory(bytes) =>
          r := WriteFile(place, Media(bytes));
        case OnDisk(id) =>
          if id >= |medias| {
            return Some(BadDescriptor);
          }
          if growing {
            fs := DropName(fs, place);
            var linked := LinkTo(fs, medias[id], place);
            if linked.Fail? {
              return Some(linked.error);
            }
            fs := linked.value;
          } else {
            var promoted := PromoteTo(fs, medias[id], place);
            if promoted.Fail? {
              return Some(promoted.error);
            }
            fs := promoted.value.0;
            medias := medias[id := promoted.value.1];
          }
          r := None;
      }
    }

    method UpdateObject(bucket: string, blob: Blob) returns (r: Option<Error>)
      modifies this
      ensures Does(TellUpdate(old(State()), bucket, SlotOf(blob.meta.name), blob), r, State())
    {
      var slot := SlotOf(blob.meta.name);
      r := RefreshObject(bucket, slot, blob);
    }

    method RefreshObject(bucket: string, slot: Slot, blob: Blob) returns (r: Option<Error>)
      requires slot.media != [] && slot.sidecar != []
      modifies this
      ensures Does(TellUpdate(old(State()), bucket, slot, blob), r, State())
    {
      var leaf := OpenDir(fs, bucket, Dir(slot.media));
      if leaf.Fail? {
        return Some(leaf.error);
      }
      if blob.media.OnDisk? && blob.media.id < |medias| && medias[blob.media.id].staging.Some? && !blob.upload {
        var sealed_ := SealOff(fs, medias[blob.media.id]);
        if sealed_.Fail? {
          return Some(sealed_.error);
        }
        fs := sealed_.value.0;
        medias := medias[blob.media.id := sealed_.value.1];
      }
      r := WriteFile(Place(bucket, slot.sidecar), ObjectSidecar(blob.meta.name, blob.meta));
    }

    method DeleteObject(bucket: string, name: string) returns (r: Option<Error>)
      modifies this
      ensures Does(TellDelete(old(State()), bucket, SlotOf(name)), r, State())
    {
      var slot := SlotOf(name);
      var leaf := OpenDir(fs, bucket, Dir(slot.media));
      if leaf.Fail? {
        return Some(leaf.error);
      }
      fs := DropName(fs, Place(bucket, slot.media));
      fs := DropName(fs, Place(bucket, slot.sidecar));
      return None;
    }

    /** A soft delete: calls on names, and one new file for the metadata. */
    method SoftDeleteObject(bucket: string, blob: Blob) returns (r: Option<Error>)
      modifies this
      ensures Does(TellSoftDelete(old(State()), bucket, SlotOf(blob.meta.name), blob), r, State())
      ensures medias == old(medias)
    {
      var slot, dir := SlotOf(blob.meta.name), SoftDir(blob.meta.generation);
      var made := MakeDirs(fs, bucket, dir);
      if made.Fail? {
        return Some(made.error);
      }
      fs := made.value;
      var leaf := OpenDir(fs, bucket, Dir(slot.media));
      if leaf.Fail? {
        return Some(leaf.error);
      }
      var moved := MoveQuiet(fs, Place(bucket, slot.media), Place(bucket, dir + [Text("media")]));
      if moved.Fail? {
        return Some(moved.error);
      }
      fs := moved.value;
      r := WriteFile(Place(bucket, dir + [Text("meta.gcsmeta")]), ObjectSidecar(blob.meta.name, blob.meta));
      if r.None? {
        fs := DropName(fs, Place(bucket, slot.sidecar));
      }
    }

    /** The files of a soft-deleted generation go; nothing else does. */
    method PurgeObject(bucket: string, generation: nat)
      modifies this`fs
      ensures State() == TellPurge(old(State()), bucket, generation)
      ensures forall place: Place :: FileAt(fs, place) == FileAt(old(fs), place) ||
                                     (FileAt(fs, place) == None && place.bucket == bucket && SoftDir(generation) <= place.path)
    {
      fs := RemoveDir(fs, bucket, SoftDir(generation));
    }

    /** One name goes, if it is there; no inode, descriptor or other name is touched. */
    method DeleteUpload(bucket: string, uploadId: string) returns (r: Option<Error>)
      modifies this
      ensures Does(DropUpload(old(State()), bucket, uploadId), r, State())
      ensures r.Some? ==> State() == old(State())
      ensures forall place: Place :: FileAt(fs, place) ==
                                     if r.None? && place == Place(bucket, StagingPath(uploadId)) then None else FileAt(old(fs), place)
      ensures fs.inodes == old(fs).inodes && fs.descriptors == old(fs).descriptors && medias == old(medias)
    {
      var made := MakeDirs(fs, bucket, UPLOADS_DIR);
      if made.Fail? {
        return Some(made.error);
      }
      fs := DropName(made.value, Place(bucket, StagingPath(uploadId)));
      return None;
    }

    method Append(id: nat, data: Bytes) returns (r: Option<Error>)
      modifies this
      ensures Does(Grow(old(State()), id, data), r, State())
    {
      if id >= |medias| {
        return Some(BadDescriptor);
      }
      var grown := AppendTo(fs, medias[id], data);
      if grown.Fail? {
        return Some(grown.error);
      }
      fs := grown.value.0;
      medias := medias[id := grown.value.1];
      return None;
    }

    method NewUploadMedia(bucket: string, uploadId: string) returns (r: Outcome<nat>)
      modifies this
      ensures var o := StageUpload(old(State()), bucket, uploadId);
              if r.Ok? then o.Ok? && State() == o.value && r.value == |old(medias)| else o == Fail(r.error)
    {
      var made := MakeDirs(fs, bucket, UPLOADS_DIR);
      if made.Fail? {
        return Fail(made.error);
      }
      fs := made.value;
      var staged := Stage(fs, Place(bucket, StagingPath(uploadId)));
      if staged.Fail? {
        return Fail(staged.error);
      }
      fs := staged.value.0;
      medias := medias + [staged.value.1];
      return Ok(|medias| - 1);
    }
  }

  function ErrorOf<T>(o: Outcome<T>): Option<Error> {
    match o
    case Ok(_) => None
    case Fail(error) => Some(error)
  }

  /** A step that either fails as foreseen, or leaves the foreseen state. */
  ghost predicate Does(expected: Outcome<Store>, r: Option<Error>, state: Store) {
    r == ErrorOf(expected) && (expected.Ok? ==> state == expected.value)
  }
}
