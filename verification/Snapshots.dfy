/**
 What readers that hold on to a media can count on, whatever the store is told: names are re-pointed,
 no inode of a media whose growth has ended is written again. Nothing here depends on the mirror.
 */
module Snapshots {

  import opened Bytes
  import opened Checksums
  import opened Database
  import opened FileMedia
  import opened FileStore
  import opened Mirroring
  import opened Pathing
  import opened Posix
  import opened Resources
  import opened Shelves
  import opened StoreSteps
  import opened Wrappers

  /** The index and the store that hears of its changes. */
  datatype Backed = Backed(index: Index, store: Store)

  /**
   A notification for any generation, live or not; a change that an update made before it raised, of
   which the store does not hear; the start, the growth and the cancellation of an upload.
   */
  datatype Event =
    | Heard(note: Note)
    | Unheard(note: Note)
    | Begun(bucket: string, uploadId: string)
    | Grown(id: nat, data: Bytes)
    | Cancelled(bucket: string, uploadId: string)

  const NOTHING := Backed(EMPTY, Store(Fs(map[], [], []), []))

  function Tell(store: Store, note: Note): Outcome<Store> {
    match note
    case BucketInserted(bucket) => TellBucket(store, bucket)
    case BucketUpdated(bucket) => TellBucketUpdate(store, bucket)
    case BucketDeleted(name) => Ok(TellBucketDelete(store, name))
    case ObjectInserted(b, blob) => TellInsert(store, b, SlotOf(blob.meta.name), blob)
    case ObjectUpdated(b, blob) => TellUpdate(store, b, SlotOf(blob.meta.name), blob)
    case ObjectDeleted(b, key) => TellDelete(store, b, SlotOf(key.name))
    case ObjectSoftDeleted(b, blob) => TellSoftDelete(store, b, SlotOf(blob.meta.name), blob)
    case ObjectPurged(b, key) => Ok(TellPurge(store, b, key.generation))
    case FolderInserted(name, _) => WriteFolder(store, FolderBucket(name), name)
    case FolderDeleted(name) => RemoveFolder(store, FolderBucket(name), name)
    case FolderRenamed(source, destination, _) => TellFolderRename(store, source, destination)
    case Cleared => Ok(TellClear(store))
  }

  function Next(s: Backed, event: Event): Outcome<Backed> {
    match event
    case Heard(note) =>
      var told :- Tell(s.store, note);
      Ok(Backed(Absorb(s.index, note), told))
    case Unheard(note) => Ok(s.(index := Absorb(s.index, note)))
    case Begun(b, uploadId) =>
      var staged :- StageUpload(s.store, b, uploadId);
      Ok(s.(store := staged))
    case Grown(id, data) =>
      var grown :- Grow(s.store, id, data);
      Ok(s.(store := grown))
    case Cancelled(b, uploadId) =>
      var dropped :- DropUpload(s.store, b, uploadId);
      Ok(s.(store := dropped))
  }

  /** Media exist before objects refer to them, and upload ids are not used twice. */
  ghost predicate Legal(s: Backed, event: Event) {
    match event
    case Heard(ObjectInserted(_, blob)) => blob.media.OnDisk? ==> blob.media.id < |s.store.medias|
    case Heard(ObjectUpdated(_, blob)) => blob.media.OnDisk? ==> blob.media.id < |s.store.medias|
    case Unheard(note) => OnlyMetadata(s.index, note)
    case Begun(b, uploadId) => Unused(s.store, Place(b, StagingPath(uploadId)))
    case _ => true
  }

  /** A change of a bucket, or of an object that keeps its media and its upload. */
  predicate OnlyMetadata(index: Index, note: Note) {
    match note
    case BucketUpdated(_) => true
    case ObjectUpdated(b, blob) =>
      var before := Generation(index, b, KeyOf(blob));
      before.Some? && blob.media == before.value.media && blob.upload == before.value.upload
    case _ => false
  }

  predicate Unused(store: Store, place: Place) {
    && FileAt(store.fs, place) == None
    && forall k :: 0 <= k < |store.medias| && store.medias[k].staging.Some? ==> store.medias[k].staging.value.place != place
  }

  /** The media of an object without an upload never grow again. */
  ghost predicate AllSettled(index: Index, store: Store) {
    match index
    case Index(_, objects, _, _) =>
      forall b, key :: b in objects && key in objects[b] && !objects[b][key].upload ==> SettledNow(store, objects[b][key].media)
  }

  ghost predicate Kept(s: Backed) {
    Handles(s.store) && AllSettled(s.index, s.store)
  }

  // ---- File system calls and media ----

  lemma QuietSelf(store: Store)
    ensures Quiet(store, store)
  {
  }

  lemma QuietThen(a: Store, b: Store, c: Store)
    requires Quiet(a, b) && Quiet(b, c)
    ensures Quiet(a, c)
  {
    hide FileAt;
  }

  lemma MakeDirsQuiet(store: Store, bucket: string, dir: Path)
    ensures var r := MakeDirs(store.fs, bucket, dir); r.Ok? ==> Quiet(store, store.(fs := r.value))
  {
  }

  lemma WriteQuiet(store: Store, place: Place, content: Content)
    requires place.path != [] && !IsStaging(place.path)
    ensures var r := WriteAtomic(store.fs, place, content); r.Ok? ==> Quiet(store, store.(fs := r.value))
  {
  }

  lemma DropQuiet(store: Store, place: Place)
    ensures Quiet(store, store.(fs := DropName(store.fs, place)))
  {
  }

  lemma LinkQuiet(store: Store, source: Place, destination: Place)
    requires destination.path != [] && !IsStaging(destination.path)
    ensures var r := Link(store.fs, source, destination); r.Ok? ==> Quiet(store, store.(fs := r.value))
  {
  }

  lemma RenameNames(fs: Fs, source: Place, destination: Place)
    requires destination.path != [] && !IsStaging(destination.path)
    ensures var r := Rename(fs, source, destination);
            r.Ok? ==> r.value.inodes == fs.inodes && r.value.descriptors == fs.descriptors && StagingOnlyGoes(fs, r.value)
  {
  }

  lemma PromoteEnds(store: Store, id: nat, destination: Place)
    requires id < |store.medias| && store.medias[id].staging.Some? && destination.path != [] && !IsStaging(destination.path)
    ensures var r := PromoteTo(store.fs, store.medias[id], destination);
            r.Ok? ==> Ends(store, Store(r.value.0, store.medias[id := r.value.1]), id)
  {
    hide Rename, IsStaging;
    var staging := store.medias[id].staging.value;
    var closed := Close(store.fs, staging.appendFd);
    RenameNames(closed, staging.place, destination);
    SameNames(store.fs, closed);
  }

  /** Closing a descriptor leaves the names alone. */
  lemma SameNames(fs: Fs, after: Fs)
    requires after.trees == fs.trees
    ensures forall place :: FileAt(after, place) == FileAt(fs, place)
  {
  }

  lemma SealEnds(store: Store, id: nat)
    requires id < |store.medias| && store.medias[id].staging.Some?
    ensures var r := SealOff(store.fs, store.medias[id]);
            r.Ok? ==> Ends(store, Store(r.value.0, store.medias[id := r.value.1]), id)
  {
    var staging := store.medias[id].staging.value;
    var closed := Close(store.fs, staging.appendFd);
    SameNames(store.fs, closed);
    DropQuiet(store.(fs := closed), staging.place);
  }

  // ---- Steps that keep what readers hold ----

  /** The store goes from one state with sound media to another, and takes nothing from a reader. */
  ghost predicate Carries(before: Store, after: Store) {
    Handles(before) ==> Handles(after) && Evolves(before, after)
  }

  lemma CarriesOn(a: Store, b: Store, c: Store)
    requires Carries(a, b) && Carries(b, c)
    ensures Carries(a, c)
  {
    hide Handles, Evolves;
    if Handles(a) {
      EvolvesOn(a, b, c);
    }
  }

  lemma QuietCarries(before: Store, after: Store)
    requires Quiet(before, after)
    ensures Carries(before, after)
  {
    hide Handles, Evolves, Quiet;
    if Handles(before) {
      QuietKeeps(before, after);
      QuietEvolves(before, after);
    }
  }

  lemma EndsCarries(before: Store, after: Store, id: nat)
    requires Ends(before, after, id)
    ensures Carries(before, after)
  {
    hide Handles, Evolves, Ends;
    if Handles(before) {
      EndsKeeps(before, after, id);
      EndsEvolves(before, after, id);
    }
  }

  lemma DepositCarries(store: Store, place: Place, media: MediaRef, growing: bool)
    requires place.path != [] && !IsStaging(place.path) && (media.OnDisk? ==> media.id < |store.medias|)
    ensures var r := Deposit(store, place, media, growing);
            r.Ok? ==> Carries(store, r.value) && (!growing ==> SettledNow(r.value, media)) && |r.value.medias| == |store.medias|
  {
    hide Carries, Quiet, Ends, WriteAtomic, Link, PromoteTo, DropName, IsStaging;
    var r := Deposit(store, place, media, growing);
    if r.Ok? {
      match media
      case InMemory(bytes) =>
        WriteQuiet(store, place, Content.Media(bytes));
        QuietCarries(store, r.value);
      case OnDisk(id) =>
        if growing {
          LinkCarries(store, place, id);
        } else {
          PromoteCarries(store, place, id);
        }
    }
  }

  lemma LinkCarries(store: Store, place: Place, id: nat)
    requires place.path != [] && !IsStaging(place.path) && id < |store.medias|
    ensures var r := LinkTo(DropName(store.fs, place), store.medias[id], place);
            r.Ok? ==> Carries(store, store.(fs := r.value))
  {
    hide Carries, Quiet, Link, DropName, IsStaging;
    var dropped := store.(fs := DropName(store.fs, place));
    DropQuiet(store, place);
    if store.medias[id].staging.Some? {
      LinkQuiet(dropped, store.medias[id].staging.value.place, place);
      var r := LinkTo(dropped.fs, store.medias[id], place);
      if r.Ok? {
        QuietThen(store, dropped, dropped.(fs := r.value));
        QuietCarries(store, store.(fs := r.value));
      }
    }
  }

  lemma PromoteCarries(store: Store, place: Place, id: nat)
    requires place.path != [] && !IsStaging(place.path) && id < |store.medias|
    ensures var r := PromoteTo(store.fs, store.medias[id], place);
            r.Ok? ==> var after := Store(r.value.0, store.medias[id := r.value.1]);
                      Carries(store, after) && SettledNow(after, OnDisk(id))
  {
    hide Carries, Ends, Rename, IsStaging, Quiet;
    var r := PromoteTo(store.fs, store.medias[id], place);
    if store.medias[id].staging.Some? {
      PromoteEnds(store, id, place);
      if r.Ok? {
        EndsCarries(store, Store(r.value.0, store.medias[id := r.value.1]), id);
      }
    } else {
      assert store.medias[id := store.medias[id]] == store.medias;
      QuietSelf(store);
      QuietCarries(store, store);
    }
  }

  /** A slot of any name is outside the uploads. */
  lemma SlotElsewhere(name: string)
    ensures !IsStaging(SlotOf(name).media) && !IsStaging(SlotOf(name).sidecar)
  {
    var media := MediaPath(name);
    if !NeedsOverflow(name) {
      NaturalPathsAreContained(name);
      if media[0] == GCS {
        assert Split(".gcs") == [".gcs"] && Escape(".gcs") == ".gcs" by {
          DotGcs();
        }
      }
    }
  }

  lemma InsertCarries(store: Store, b: string, slot: Slot, blob: Blob)
    requires slot.media != [] && slot.sidecar != [] && !IsStaging(slot.media) && !IsStaging(slot.sidecar)
    requires blob.media.OnDisk? ==> blob.media.id < |store.medias|
    ensures var r := TellInsert(store, b, slot, blob);
            r.Ok? ==> Carries(store, r.value) && (!blob.upload ==> SettledNow(r.value, blob.media))
  {
    hide Carries, Quiet, Deposit, WriteAtomic, MakeDirs, IsStaging, GuardCollision;
    var r := TellInsert(store, b, slot, blob);
    if r.Ok? {
      MakeDirsQuiet(store, b, Dir(slot.media));
      var made := store.(fs := MakeDirs(store.fs, b, Dir(slot.media)).value);
      QuietCarries(store, made);
      DepositCarries(made, Place(b, slot.media), blob.media, blob.upload);
      var deposited := Deposit(made, Place(b, slot.media), blob.media, blob.upload).value;
      CarriesOn(store, made, deposited);
      WriteQuiet(deposited, Place(b, slot.sidecar), ObjectSidecar(blob.meta.name, blob.meta));
      QuietCarries(deposited, r.value);
      CarriesOn(store, deposited, r.value);
    }
  }

  /** An insert from memory touches no media at all. */
  lemma BytesQuiet(store: Store, b: string, slot: Slot, blob: Blob)
    requires slot.media != [] && slot.sidecar != [] && !IsStaging(slot.media) && !IsStaging(slot.sidecar) && blob.media.InMemory?
    ensures TellInsert(store, b, slot, blob).Ok? ==> Quiet(store, TellInsert(store, b, slot, blob).value)
  {
    hide Quiet, WriteAtomic, MakeDirs, IsStaging, GuardCollision;
    var r := TellInsert(store, b, slot, blob);
    if r.Ok? {
      var made := store.(fs := MakeDirs(store.fs, b, Dir(slot.media)).value);
      MakeDirsQuiet(store, b, Dir(slot.media));
      var media := Content.Media(blob.media.bytes);
      WriteQuiet(made, Place(b, slot.media), media);
      var written := made.(fs := WriteAtomic(made.fs, Place(b, slot.media), media).value);
      QuietThen(store, made, written);
      WriteQuiet(written, Place(b, slot.sidecar), ObjectSidecar(blob.meta.name, blob.meta));
      QuietThen(store, written, r.value);
    }
  }

  lemma SettleCarries(store: Store, blob: Blob)
    requires blob.media.OnDisk? ==> blob.media.id < |store.medias|
    ensures var r := Settle(store, blob);
            r.Ok? ==> Carries(store, r.value) && (!blob.upload ==> SettledNow(r.value, blob.media))
  {
    hide Carries, Quiet, Ends, SealOff;
    QuietSelf(store);
    QuietCarries(store, store);
    var r := Settle(store, blob);
    if r.Ok? && blob.media.OnDisk? && store.medias[blob.media.id].staging.Some? && !blob.upload {
      SealEnds(store, blob.media.id);
      EndsCarries(store, r.value, blob.media.id);
      SealSettles(store, blob.media.id);
    }
  }

  lemma SealSettles(store: Store, id: nat)
    requires id < |store.medias|
    ensures SealOff(store.fs, store.medias[id]).Ok? ==> SealOff(store.fs, store.medias[id]).value.1.staging.None?
  {
  }

  lemma UpdateCarries(store: Store, b: string, slot: Slot, blob: Blob)
    requires slot.media != [] && slot.sidecar != [] && !IsStaging(slot.sidecar)
    requires blob.media.OnDisk? ==> blob.media.id < |store.medias|
    ensures var r := TellUpdate(store, b, slot, blob);
            r.Ok? ==> Carries(store, r.value) && (!blob.upload ==> SettledNow(r.value, blob.media))
  {
    hide Carries, Quiet, Settle, WriteAtomic, IsStaging;
    var r := TellUpdate(store, b, slot, blob);
    if r.Ok? {
      SettleCarries(store, blob);
      var settled := Settle(store, blob).value;
      WriteQuiet(settled, Place(b, slot.sidecar), ObjectSidecar(blob.meta.name, blob.meta));
      QuietCarries(settled, r.value);
      CarriesOn(store, settled, r.value);
    }
  }

  lemma BucketQuiet(store: Store, bucket: BucketMeta)
    ensures TellBucket(store, bucket).Ok? ==> Quiet(store, TellBucket(store, bucket).value)
    ensures TellBucketUpdate(store, bucket).Ok? ==> Quiet(store, TellBucketUpdate(store, bucket).value)
  {
    hide Quiet, WriteAtomic, WithTree, MakeSubdirs;
    var place, sidecar := Place(bucket.name, BUCKET_JSON), BucketSidecar(bucket);
    if TellBucketUpdate(store, bucket).Ok? {
      MakeDirsQuiet(store, bucket.name, GCS_DIR);
      var made := store.(fs := MakeDirs(store.fs, bucket.name, GCS_DIR).value);
      WriteQuiet(made, place, sidecar);
      QuietThen(store, made, TellBucketUpdate(store, bucket).value);
    }
    if TellBucket(store, bucket).Ok? {
      var rooted := store.(fs := WithTree(store.fs, bucket.name));
      TreeQuiet(store, bucket.name);
      MakeDirsQuiet(rooted, bucket.name, GCS_DIR);
      var made := rooted.(fs := MakeDirs(rooted.fs, bucket.name, GCS_DIR).value);
      QuietThen(store, rooted, made);
      SubdirsQuiet(made, bucket.name);
      var sub := made.(fs := MakeSubdirs(made.fs, bucket.name));
      QuietThen(store, made, sub);
      WriteQuiet(sub, place, sidecar);
      QuietThen(store, sub, TellBucket(store, bucket).value);
    }
  }

  lemma BucketCarries(store: Store, bucket: BucketMeta)
    ensures TellBucket(store, bucket).Ok? ==> Carries(store, TellBucket(store, bucket).value)
    ensures TellBucketUpdate(store, bucket).Ok? ==> Carries(store, TellBucketUpdate(store, bucket).value)
  {
    hide Carries, Quiet, TellBucket, TellBucketUpdate;
    BucketQuiet(store, bucket);
    if TellBucketUpdate(store, bucket).Ok? {
      QuietCarries(store, TellBucketUpdate(store, bucket).value);
    }
    if TellBucket(store, bucket).Ok? {
      QuietCarries(store, TellBucket(store, bucket).value);
    }
  }

  lemma TreeQuiet(store: Store, bucket: string)
    ensures Quiet(store, store.(fs := WithTree(store.fs, bucket)))
  {
  }

  lemma SubdirsQuiet(store: Store, bucket: string)
    requires bucket in store.fs.trees
    ensures Quiet(store, store.(fs := MakeSubdirs(store.fs, bucket)))
  {
  }

  lemma GoneCarries(store: Store, trees: map<string, Tree>)
    requires forall b :: b in trees ==> b in store.fs.trees && trees[b] == store.fs.trees[b]
    ensures Carries(store, store.(fs := store.fs.(trees := trees)))
  {
    hide Carries;
    QuietCarries(store, store.(fs := store.fs.(trees := trees)));
  }

  lemma DeleteCarries(store: Store, b: string, slot: Slot)
    requires slot.media != [] && slot.sidecar != []
    ensures TellDelete(store, b, slot).Ok? ==> Carries(store, TellDelete(store, b, slot).value)
  {
    hide Carries, Quiet, DropName;
    var one := store.(fs := DropName(store.fs, Place(b, slot.media)));
    DropQuiet(store, Place(b, slot.media));
    DropQuiet(one, Place(b, slot.sidecar));
    QuietThen(store, one, one.(fs := DropName(one.fs, Place(b, slot.sidecar))));
    QuietCarries(store, one.(fs := DropName(one.fs, Place(b, slot.sidecar))));
  }

  lemma MoveQuietly(store: Store, source: Place, destination: Place)
    requires destination.path != [] && !IsStaging(destination.path)
    ensures var r := MoveQuiet(store.fs, source, destination); r.Ok? ==> Quiet(store, store.(fs := r.value))
  {
    RenameNames(store.fs, source, destination);
  }

  lemma SoftDeleteCarries(store: Store, b: string, slot: Slot, blob: Blob)
    requires slot.media != [] && slot.sidecar != []
    ensures TellSoftDelete(store, b, slot, blob).Ok? ==> Carries(store, TellSoftDelete(store, b, slot, blob).value)
  {
    hide Carries, Quiet, MakeDirs, MoveQuiet, WriteAtomic, DropName;
    var r := TellSoftDelete(store, b, slot, blob);
    if r.Ok? {
      var dir := SoftDir(blob.meta.generation);
      var media, sidecar := Place(b, dir + [Text("media")]), Place(b, dir + [Text("meta.gcsmeta")]);
      MakeDirsQuiet(store, b, dir);
      var made := store.(fs := MakeDirs(store.fs, b, dir).value);
      MoveQuietly(made, Place(b, slot.media), media);
      var moved := made.(fs := MoveQuiet(made.fs, Place(b, slot.media), media).value);
      QuietThen(store, made, moved);
      WriteQuiet(moved, sidecar, ObjectSidecar(blob.meta.name, blob.meta));
      var written := moved.(fs := WriteAtomic(moved.fs, sidecar, ObjectSidecar(blob.meta.name, blob.meta)).value);
      QuietThen(store, moved, written);
      DropQuiet(written, Place(b, slot.sidecar));
      QuietThen(store, written, r.value);
      QuietCarries(store, r.value);
    }
  }

  lemma RemoveDirQuiet(store: Store, b: string, dir: Path)
    ensures Quiet(store, store.(fs := RemoveDir(store.fs, b, dir)))
  {
  }

  lemma WriteFolderQuiet(store: Store, b: string, folder: string)
    ensures WriteFolder(store, b, folder).Ok? ==> Quiet(store, WriteFolder(store, b, folder).value)
  {
    hide Quiet, MakeDirs, WriteAtomic;
    if WriteFolder(store, b, folder).Ok? {
      MakeDirsQuiet(store, b, FOLDERS_DIR);
      var made := store.(fs := MakeDirs(store.fs, b, FOLDERS_DIR).value);
      WriteQuiet(made, Place(b, FolderPath(folder)), FolderEnvelope(folder));
      QuietThen(store, made, WriteFolder(store, b, folder).value);
    }
  }

  lemma RemoveFolderQuiet(store: Store, b: string, folder: string)
    ensures RemoveFolder(store, b, folder).Ok? ==> Quiet(store, RemoveFolder(store, b, folder).value)
  {
    DropQuiet(store, Place(b, FolderPath(folder)));
  }

  lemma RenameFolderQuiet(store: Store, source: string, destination: string)
    ensures TellFolderRename(store, source, destination).Ok? ==> Quiet(store, TellFolderRename(store, source, destination).value)
  {
    hide Quiet, RemoveFolder, WriteFolder;
    var b := FolderBucket(source);
    if TellFolderRename(store, source, destination).Ok? {
      RemoveFolderQuiet(store, b, source);
      var removed := RemoveFolder(store, b, source).value;
      WriteFolderQuiet(removed, b, destination);
      QuietThen(store, removed, TellFolderRename(store, source, destination).value);
    }
  }

  lemma FolderCarries(store: Store, note: Note)
    requires note.FolderInserted? || note.FolderDeleted? || note.FolderRenamed?
    ensures Tell(store, note).Ok? ==> Carries(store, Tell(store, note).value)
  {
    hide Carries, Quiet, WriteFolder, RemoveFolder, TellFolderRename, FolderBucket;
    match note {
      case FolderInserted(name, _) => WriteFolderQuiet(store, FolderBucket(name), name);
      case FolderDeleted(name) => RemoveFolderQuiet(store, FolderBucket(name), name);
      case FolderRenamed(source, destination, _) => RenameFolderQuiet(store, source, destination);
    }
    if Tell(store, note).Ok? {
      QuietCarries(store, Tell(store, note).value);
    }
  }

  /** Whatever the store is told, of any generation, readers keep what they have. */
  lemma TellCarries(store: Store, note: Note)
    requires note.ObjectInserted? || note.ObjectUpdated? ==> note.blob.media.OnDisk? ==> note.blob.media.id < |store.medias|
    ensures var r := Tell(store, note);
            r.Ok? ==> Carries(store, r.value)
                      && ((note.ObjectInserted? || note.ObjectUpdated?) && !note.blob.upload ==> SettledNow(r.value, note.blob.media))
  {
    hide Carries, TellInsert, TellUpdate, TellDelete, TellBucket, TellBucketUpdate, SettledNow, IsStaging, SlotOf, TellSoftDelete,
         WriteFolder, RemoveFolder, TellFolderRename, Quiet, SoftDir, RemoveDir, FolderBucket;
    match note
    case BucketInserted(bucket) => BucketCarries(store, bucket);
    case BucketUpdated(bucket) => BucketCarries(store, bucket);
    case BucketDeleted(name) => GoneCarries(store, store.fs.trees - {name});
    case ObjectInserted(b, blob) =>
      SlotElsewhere(blob.meta.name);
      InsertCarries(store, b, SlotOf(blob.meta.name), blob);
    case ObjectUpdated(b, blob) =>
      SlotElsewhere(blob.meta.name);
      UpdateCarries(store, b, SlotOf(blob.meta.name), blob);
    case ObjectDeleted(b, key) => DeleteCarries(store, b, SlotOf(key.name));
    case ObjectSoftDeleted(b, blob) => SoftDeleteCarries(store, b, SlotOf(blob.meta.name), blob);
    case ObjectPurged(b, key) =>
      RemoveDirQuiet(store, b, SoftDir(key.generation));
      QuietCarries(store, TellPurge(store, b, key.generation));
    case Cleared => GoneCarries(store, map[]);
    case _ => FolderCarries(store, note);
  }

  // ---- Uploads ----

  lemma StageIsNew(store: Store, place: Place)
    requires place.path != [] && FileAt(store.fs, place) == None
    ensures var r := Stage(store.fs, place);
            r.Ok? ==> NewlyStaged(store, Store(r.value.0, store.medias + [r.value.1]), place)
  {
    hide StagingKept;
    var r := Stage(store.fs, place);
    if r.Ok? {
      var i, d := |store.fs.inodes|, store.fs.descriptors;
      assert d + [Some(i)] + [Some(i)] == d + [Some(i), Some(i)];
      StageNames(store.fs, place);
    }
  }

  lemma StageNames(fs: Fs, place: Place)
    requires place.path != [] && FileAt(fs, place) == None
    ensures var r := Stage(fs, place); r.Ok? ==> StagingKept(fs, r.value.0, Some(place))
  {
  }

  lemma BegunCarries(store: Store, b: string, uploadId: string)
    requires Unused(store, Place(b, StagingPath(uploadId)))
    ensures StageUpload(store, b, uploadId).Ok? ==> Carries(store, StageUpload(store, b, uploadId).value)
  {
    hide Quiet, Stage, NewlyStaged, Handles, Evolves;
    var place := Place(b, StagingPath(uploadId));
    if StageUpload(store, b, uploadId).Ok? {
      MakeDirsQuiet(store, b, UPLOADS_DIR);
      var made := store.(fs := MakeDirs(store.fs, b, UPLOADS_DIR).value);
      QuietCarries(store, made);
      StageIsNew(made, place);
      NewCarries(made, StageUpload(store, b, uploadId).value, place);
      CarriesOn(store, made, StageUpload(store, b, uploadId).value);
    }
  }

  lemma NewCarries(before: Store, after: Store, place: Place)
    requires NewlyStaged(before, after, place) && IsStaging(place.path) && Unused(before, place)
    ensures Carries(before, after)
  {
    hide Handles, Evolves, NewlyStaged;
    if Handles(before) {
      StagedKeeps(before, after, place);
      StagedEvolves(before, after, place);
    }
  }

  lemma GrowthCarries(store: Store, id: nat, data: Bytes)
    ensures Grow(store, id, data).Ok? ==> Carries(store, Grow(store, id, data).value)
  {
    hide Handles, Evolves, Grow;
    if Grow(store, id, data).Ok? && Handles(store) {
      GrowthGrew(store, id, data);
      GrewKeeps(store, Grow(store, id, data).value, id, data);
      GrewEvolves(store, Grow(store, id, data).value, id, data);
    }
  }

  lemma GrowthGrew(store: Store, id: nat, data: Bytes)
    requires Handles(store) && Grow(store, id, data).Ok?
    ensures id < |store.medias| && store.medias[id].staging.Some? && Grew(store, Grow(store, id, data).value, id, data)
  {
    hide Rolling, Crc32c;
    assert HandleSound(store.fs, store.medias[id]);
    AppendAdds(store.fs, store.medias[id], data);
  }

  lemma CancelCarries(store: Store, b: string, uploadId: string)
    ensures DropUpload(store, b, uploadId).Ok? ==> Carries(store, DropUpload(store, b, uploadId).value)
  {
    hide Carries, Quiet, MakeDirs, DropName;
    if DropUpload(store, b, uploadId).Ok? {
      MakeDirsQuiet(store, b, UPLOADS_DIR);
      var made := store.(fs := MakeDirs(store.fs, b, UPLOADS_DIR).value);
      DropQuiet(made, Place(b, StagingPath(uploadId)));
      QuietThen(store, made, DropUpload(store, b, uploadId).value);
      QuietCarries(store, DropUpload(store, b, uploadId).value);
    }
  }

  // ---- Events ----

  lemma SettledStays(before: Store, after: Store, media: MediaRef)
    requires Evolves(before, after) && SettledNow(before, media)
    ensures SettledNow(after, media) && BytesBehind(after, media) == BytesBehind(before, media)
  {
    hide MediaBytes, MediaInode;
  }

  lemma StillSettled(index: Index, before: Store, after: Store)
    requires AllSettled(index, before) && Evolves(before, after)
    ensures AllSettled(index, after)
  {
    hide Evolves, SettledNow;
    forall b, key | b in index.objects && key in index.objects[b] && !index.objects[b][key].upload
      ensures SettledNow(after, index.objects[b][key].media)
    {
      SettledStays(before, after, index.objects[b][key].media);
    }
  }

  lemma AbsorbSettled(index: Index, note: Note, store: Store)
    requires AllSettled(index, store)
    requires (note.ObjectInserted? || note.ObjectUpdated?) && !note.blob.upload ==> SettledNow(store, note.blob.media)
    ensures AllSettled(Absorb(index, note), store)
  {
    hide SettledNow;
  }

  lemma MetadataSettled(index: Index, note: Note, store: Store)
    requires AllSettled(index, store) && OnlyMetadata(index, note)
    ensures AllSettled(Absorb(index, note), store)
  {
    hide SettledNow;
  }

  /** No event takes anything from a reader, and the media of objects without an upload stay settled. */
  lemma EventKeeps(s: Backed, event: Event)
    requires Kept(s) && Legal(s, event)
    ensures var r := Next(s, event); r.Ok? ==> Kept(r.value) && Evolves(s.store, r.value.store)
  {
    hide Handles, AllSettled, Evolves, Tell, StageUpload, Grow, DropUpload, Quiet, Absorb, Unused, SettledNow;
    var r := Next(s, event);
    if r.Ok? {
      match event
      case Heard(note) =>
        TellCarries(s.store, note);
        StillSettled(s.index, s.store, r.value.store);
        AbsorbSettled(s.index, note, r.value.store);
      case Unheard(note) =>
        SelfEvolves(s.store);
        MetadataSettled(s.index, note, s.store);
      case Begun(b, uploadId) =>
        BegunCarries(s.store, b, uploadId);
        StillSettled(s.index, s.store, r.value.store);
      case Grown(id, data) =>
        GrowthCarries(s.store, id, data);
        StillSettled(s.index, s.store, r.value.store);
      case Cancelled(b, uploadId) =>
        CancelCarries(s.store, b, uploadId);
        StillSettled(s.index, s.store, r.value.store);
    }
  }

  // ---- Runs ----

  /** A run of events, each of which the store carries out. */
  ghost predicate Reaches(s: Backed, events: seq<Event>, after: Backed)
    decreases |events|
  {
    if events == [] then after == s
    else Legal(s, events[0]) && Next(s, events[0]).Ok? && Reaches(Next(s, events[0]).value, events[1..], after)
  }

  lemma {:induction false} RunKeeps(s: Backed, events: seq<Event>, after: Backed)
    requires Kept(s) && Reaches(s, events, after)
    ensures Kept(after) && Evolves(s.store, after.store)
    decreases |events|
  {
    hide Kept, Legal, Next, Evolves;
    if events == [] {
      SelfEvolves(s.store);
    } else {
      var next := Next(s, events[0]).value;
      EventKeeps(s, events[0]);
      RunKeeps(next, events[1..], after);
      EvolvesOn(s.store, next.store, after.store);
    }
  }

  lemma SelfEvolves(store: Store)
    ensures Evolves(store, store)
  {
  }

  lemma NothingKept()
    ensures Kept(NOTHING)
  {
  }

  /** A media whose growth has ended keeps its bytes, and nothing seals it again, over any run. */
  lemma SettledForGood(s: Backed, events: seq<Event>, after: Backed, id: nat)
    requires Kept(s) && Reaches(s, events, after)
    requires id < |s.store.medias| && s.store.medias[id].staging.None?
    ensures id < |after.store.medias| && after.store.medias[id] == s.store.medias[id]
    ensures MediaBytes(after.store, id) == MediaBytes(s.store, id)
    ensures forall blob: Blob :: blob.media == OnDisk(id) ==> Settle(after.store, blob) == Ok(after.store)
  {
    hide Kept, Reaches, MediaBytes, MediaInode;
    RunKeeps(s, events, after);
  }

  /**
   A snapshot of an object without an upload, live or not, taken in any reachable state, reads the
   same bytes after whatever happens later to any generation of any name.
   */
  lemma SnapshotsHold(before: seq<Event>, s: Backed, events: seq<Event>, after: Backed, b: string, key: Key)
    requires Reaches(NOTHING, before, s) && Reaches(s, events, after)
    requires Generation(s.index, b, key).Some? && !Generation(s.index, b, key).value.upload
    ensures var snapshot := Generation(s.index, b, key).value;
            BytesBehind(after.store, snapshot.media) == BytesBehind(s.store, snapshot.media)
  {
    hide Handles, Reaches, Evolves, SettledNow, BytesBehind;
    NothingKept();
    RunKeeps(NOTHING, before, s);
    RunKeeps(s, events, after);
    SettledStays(s.store, after.store, Generation(s.index, b, key).value.media);
  }

  /** Bytes a media has are never lost: later they are a prefix of what it holds, on the same inode. */
  lemma BytesOnlyGrow(s: Backed, events: seq<Event>, after: Backed, id: nat)
    requires Kept(s) && Reaches(s, events, after) && id < |s.store.medias|
    ensures id < |after.store.medias| && MediaInode(after.store, id) == MediaInode(s.store, id)
    ensures MediaBytes(s.store, id) <= MediaBytes(after.store, id)
  {
    hide Kept, Reaches, MediaBytes, MediaInode;
    RunKeeps(s, events, after);
  }
}
