/**
 The in-memory index and the notifications it sends for each mutation (testbench/database.py,
 testbench/store.py).
 */
module Database {

  import opened Resources
  import opened Wrappers

  datatype Note =
    | BucketInserted(bucket: BucketMeta)
    | BucketUpdated(bucket: BucketMeta)
    | BucketDeleted(name: string)
    | ObjectInserted(bucketName: string, blob: Blob)
    | ObjectUpdated(bucketName: string, blob: Blob)
    | ObjectDeleted(bucketName: string, key: Key)
    | ObjectSoftDeleted(bucketName: string, blob: Blob)
    | ObjectPurged(bucketName: string, key: Key)
    | FolderInserted(name: string, folder: string)
    | FolderDeleted(name: string)
    | FolderRenamed(source: string, destination: string, folder: string)
    | Cleared

  datatype Error = NotFound | AlreadyExists | NotEmpty | PreconditionFailed | InvalidRequest | NotSoftDeleted
                 | UnfinalizedObject | Raised

  /** What a store can know from notifications alone. */
  datatype Index = Index(
    buckets: map<string, BucketMeta>,
    objects: map<string, map<Key, Blob>>,
    live: map<string, map<string, nat>>,
    folders: map<string, string>)

  const EMPTY := Index(map[], map[], map[], map[])

  function Put<K, V>(m: map<string, map<K, V>>, outer: string, key: K, value: V): (r: map<string, map<K, V>>)
    requires outer in m
    ensures r.Keys == m.Keys
  {
    m[outer := m[outer][key := value]]
  }

  function Drop<K, V>(m: map<string, map<K, V>>, outer: string, key: K): (r: map<string, map<K, V>>)
    requires outer in m
    ensures r.Keys == m.Keys
  {
    m[outer := m[outer] - {key}]
  }

  /** A generation leaves the index; if it was the live one, the name has no live generation. */
  function Remove(index: Index, bucket: string, key: Key): Index
    requires bucket in index.objects && bucket in index.live
  {
    index.(objects := Drop(index.objects, bucket, key),
           live := if key.name in index.live[bucket] && index.live[bucket][key.name] == key.generation
                   then Drop(index.live, bucket, key.name) else index.live)
  }

  /** What one notification tells an independent store. */
  function Absorb(index: Index, note: Note): Index {
    match note
    case BucketInserted(b) =>
      Index(index.buckets[b.name := b], index.objects[b.name := map[]], index.live[b.name := map[]], index.folders)
    case BucketUpdated(b) => if b.name in index.buckets then index.(buckets := index.buckets[b.name := b]) else index
    case BucketDeleted(name) =>
      Index(index.buckets - {name}, index.objects - {name}, index.live - {name}, index.folders)
    case ObjectInserted(b, blob) =>
      if b in index.objects && b in index.live then
        index.(objects := Put(index.objects, b, KeyOf(blob), blob),
               live := Put(index.live, b, blob.meta.name, blob.meta.generation))
      else index
    case ObjectUpdated(b, blob) =>
      if b in index.objects then index.(objects := Put(index.objects, b, KeyOf(blob), blob)) else index
    case ObjectDeleted(b, key) =>
      if b in index.objects && b in index.live then Remove(index, b, key) else index
    case ObjectSoftDeleted(b, blob) =>
      if b in index.objects && b in index.live then Remove(index, b, KeyOf(blob)) else index
    case ObjectPurged(_, _) => index
    case FolderInserted(name, folder) => index.(folders := index.folders[name := folder])
    case FolderDeleted(name) => index.(folders := index.folders - {name})
    case FolderRenamed(source, destination, folder) =>
      index.(folders := (index.folders - {source})[destination := folder])
    case Cleared => EMPTY
  }

  /** An independent store fed by the notifications alone. */
  function Replay(log: seq<Note>): Index {
    if log == [] then EMPTY else Absorb(Replay(log[..|log| - 1]), log[|log| - 1])
  }

  /** What an update callback does to a stored resource, in place, and whether it raises an error after that. */
  datatype Change<T> = Change(value: T, raised: bool)

  type Precondition = (Option<Blob>, Option<nat>) -> bool

  // ---- What an operation may do, given the index ----

  function LiveGeneration(index: Index, bucket: string, name: string): Option<nat> {
    if bucket in index.live && name in index.live[bucket] then Some(index.live[bucket][name]) else None
  }

  function Generation(index: Index, bucket: string, key: Key): Option<Blob> {
    if bucket in index.objects && key in index.objects[bucket] then Some(index.objects[bucket][key]) else None
  }

  /** The live object of a name. */
  function Current(index: Index, bucket: string, name: string): Option<Blob> {
    var generation := LiveGeneration(index, bucket, name);
    if generation.Some? then Generation(index, bucket, Key(name, generation.value)) else None
  }

  /** The generation a request means (0 is the live one), if it exists and its preconditions hold. */
  function Find(index: Index, bucket: string, name: string, generation: nat, pre: Precondition): Result<Blob, Error> {
    var found := if generation == 0 then Current(index, bucket, name) else Generation(index, bucket, Key(name, generation));
    if found.None? then Failure(NotFound)
    else if pre(found, LiveGeneration(index, bucket, name)) then Success(found.value)
    else Failure(PreconditionFailed)
  }

  /** The key of the generation a request means, as it stands in the dictionaries. */
  ghost predicate Means(index: Index, bucket: string, name: string, generation: nat, key: Key) {
    && bucket in index.objects && key in index.objects[bucket] && key.name == name
    && if generation != 0 then key.generation == generation
       else bucket in index.live && name in index.live[bucket] && index.live[bucket][name] == key.generation
  }

  /** The precondition holds of that object, and of the live number of its name. */
  ghost predicate Allows(index: Index, bucket: string, key: Key, pre: Precondition)
    requires bucket in index.objects && key in index.objects[bucket]
  {
    pre(Some(index.objects[bucket][key]),
        if bucket in index.live && key.name in index.live[bucket] then Some(index.live[bucket][key.name]) else None)
  }

  /** A request gets to an object exactly if the generation it means is there, and its precondition holds. */
  lemma FindDecides(index: Index, bucket: string, name: string, generation: nat, pre: Precondition)
    ensures var found := Find(index, bucket, name, generation, pre);
            && (found == Failure(NotFound) <==> forall key :: !Means(index, bucket, name, generation, key))
            && (found == Failure(PreconditionFailed) <==>
                  exists key :: Means(index, bucket, name, generation, key) && !Allows(index, bucket, key, pre))
            && (found.Success? <==> exists key :: Means(index, bucket, name, generation, key) && Allows(index, bucket, key, pre))
            && (forall key :: found.Success? && Means(index, bucket, name, generation, key) ==> found.value == index.objects[bucket][key])
  {
    var found := Find(index, bucket, name, generation, pre);
    if found != Failure(NotFound) {
      var key := Key(name, if generation == 0 then index.live[bucket][name] else generation);
      assert Means(index, bucket, name, generation, key);
      assert forall other :: Means(index, bucket, name, generation, other) ==> other == key;
    }
  }

  function Insertable(index: Index, bucket: string, name: string, pre: Precondition): Option<Error> {
    if bucket !in index.objects then Some(NotFound)
    else if !pre(Current(index, bucket, name), LiveGeneration(index, bucket, name)) then Some(PreconditionFailed)
    else None
  }

  function Deletable(index: Index, bucket: string, pre: BucketMeta -> bool): Option<Error> {
    if bucket !in index.buckets then Some(NotFound)
    else if !pre(index.buckets[bucket]) then Some(PreconditionFailed)
    else if bucket in index.live && index.live[bucket] != map[] then Some(NotEmpty) else None
  }

  function ErrorOf<T>(r: Result<T, Error>): Option<Error> {
    if r.Success? then None else Some(r.error)
  }

  class Database {
    var index: Index  // the dictionaries of buckets, object generations, live generations and folders
    var softDeleted: SoftCopies
    var log: seq<Note>  // the notifications sent, oldest first

    /** Every bucket has its dictionaries; buckets, generations and copies sit under their own names. */
    ghost predicate Valid()
      reads this
    {
      && index.buckets.Keys == index.objects.Keys == index.live.Keys == softDeleted.Keys
      && Keyed(index) && SoftNamed(softDeleted)
    }

    constructor ()
      ensures Valid() && index == EMPTY && softDeleted == map[] && log == []
    {
      index, softDeleted, log := EMPTY, map[], [];
    }

    method Notify(note: Note)
      modifies this`log
      ensures log == old(log) + [note]
    {
      log := log + [note];
    }

    // ---- Buckets ----

    method InsertBucket(bucket: BucketMeta) returns (r: Option<Error>)
      requires Valid()
      modifies this
      ensures Valid()
      ensures r == if bucket.name in old(index).buckets then Some(AlreadyExists) else None
      ensures r.Some? ==> index == old(index) && log == old(log)
      ensures r.None? ==> index == Absorb(old(index), BucketInserted(bucket)) && log == old(log) + [BucketInserted(bucket)]
      ensures softDeleted == if r.None? then old(softDeleted)[bucket.name := map[]] else old(softDeleted)
    {
      if bucket.name in index.buckets {
        return Some(AlreadyExists);
      }
      hide Keyed, SoftNamed;
      KeyedBucket(index, softDeleted, bucket);
      index := Index(index.buckets[bucket.name := bucket], index.objects[bucket.name := map[]],
                     index.live[bucket.name := map[]], index.folders);
      softDeleted := softDeleted[bucket.name := map[]];
      Notify(BucketInserted(bucket));
      return None;
    }

    method DeleteBucket(name: string, pre: BucketMeta -> bool) returns (r: Option<Error>)
      requires Valid()
      modifies this
      ensures Valid()
      ensures r == Deletable(old(index), name, pre)
      ensures r == if name !in old(index).buckets then Some(NotFound)
                   else if !pre(old(index).buckets[name]) then Some(PreconditionFailed)
                   else if old(index).live[name] != map[] then Some(NotEmpty) else None
      ensures r.Some? ==> index == old(index) && log == old(log)
      ensures r.None? ==> index == Absorb(old(index), BucketDeleted(name)) && log == old(log) + [BucketDeleted(name)]
      ensures softDeleted == if r.None? then old(softDeleted) - {name} else old(softDeleted)
    {
      if name !in index.buckets {
        return Some(NotFound);
      }
      if !pre(index.buckets[name]) {
        return Some(PreconditionFailed);
      }
      if index.live[name] != map[] {
        return Some(NotEmpty);
      }
      index := Index(index.buckets - {name}, index.objects - {name}, index.live - {name}, index.folders);
      softDeleted := softDeleted - {name};
      Notify(BucketDeleted(name));
      return None;
    }

    /** The bucket is changed in place; the store is told only if the callback returns. */
    method UpdateBucket(name: string, update: BucketMeta -> Change<BucketMeta>, pre: BucketMeta -> bool)
      returns (r: Option<Error>)
      requires Valid()
      requires name in index.buckets ==> update(index.buckets[name]).value.name == name
      modifies this
      ensures Valid() && softDeleted == old(softDeleted)
      ensures r == if name !in old(index).buckets then Some(NotFound)
                   else if !pre(old(index).buckets[name]) then Some(PreconditionFailed)
                   else if update(old(index).buckets[name]).raised then Some(Raised) else None
      ensures r.Some? ==> log == old(log)
      ensures r.Some? && r != Some(Raised) ==> index == old(index)
      ensures r.None? || r == Some(Raised) ==>
                var after := update(old(index).buckets[name]).value;
                && index == old(index).(buckets := old(index).buckets[name := after])
                && index == Absorb(old(index), BucketUpdated(after))
                && (r.None? ==> log == old(log) + [BucketUpdated(after)])
    {
      if name !in index.buckets {
        return Some(NotFound);
      }
      if !pre(index.buckets[name]) {
        return Some(PreconditionFailed);
      }
      var change := update(index.buckets[name]);
      index := index.(buckets := index.buckets[name := change.value]);
      if change.raised {
        return Some(Raised);
      }
      Notify(BucketUpdated(index.buckets[name]));
      return None;
    }

    method Clear()
      requires Valid()
      modifies this
      ensures Valid() && index == EMPTY && softDeleted == map[] && log == old(log) + [Cleared]
    {
      index, softDeleted := EMPTY, map[];
      Notify(Cleared);
    }

    // ---- Folders ----

    method InsertFolder(name: string, folder: string) returns (r: Option<Error>)
      requires Valid()
      modifies this
      ensures Valid() && softDeleted == old(softDeleted)
      ensures r == if name in old(index).folders then Some(AlreadyExists) else None
      ensures r.Some? ==> index == old(index) && log == old(log)
      ensures r.None? ==> index == old(index).(folders := old(index).folders[name := folder])
      ensures r.None? ==> index == Absorb(old(index), FolderInserted(name, folder))
                          && log == old(log) + [FolderInserted(name, folder)]
    {
      if name in index.folders {
        return Some(AlreadyExists);
      }
      index := index.(folders := index.folders[name := folder]);
      Notify(FolderInserted(name, folder));
      return None;
    }

    method DeleteFolder(name: string) returns (r: Option<Error>)
      requires Valid()
      modifies this
      ensures Valid() && softDeleted == old(softDeleted)
      ensures r == if name !in old(index).folders then Some(NotFound) else None
      ensures r.Some? ==> index == old(index) && log == old(log)
      ensures r.None? ==> index == old(index).(folders := old(index).folders - {name})
      ensures r.None? ==> index == Absorb(old(index), FolderDeleted(name)) && log == old(log) + [FolderDeleted(name)]
    {
      if name !in index.folders {
        return Some(NotFound);
      }
      index := index.(folders := index.folders - {name});
      Notify(FolderDeleted(name));
      return None;
    }

    method RenameFolder(source: string, destination: string) returns (r: Option<Error>)
      requires Valid()
      modifies this
      ensures Valid() && softDeleted == old(softDeleted)
      ensures r == if source !in old(index).folders then Some(NotFound)
                   else if destination in old(index).folders then Some(AlreadyExists) else None
      ensures r.Some? ==> index == old(index) && log == old(log)
      ensures r.None? ==> var folders := old(index).folders;
                          index == old(index).(folders := folders[destination := folders[source]] - {source})
      ensures r.None? ==> var note := FolderRenamed(source, destination, old(index).folders[source]);
                          index == Absorb(old(index), note) && log == old(log) + [note]
    {
      if source !in index.folders {
        return Some(NotFound);
      }
      if destination in index.folders {
        return Some(AlreadyExists);
      }
      var folder := index.folders[source];
      index := index.(folders := (index.folders - {source})[destination := folder]);
      Notify(FolderRenamed(source, destination, folder));
      return None;
    }

    // ---- Objects ----

    method InsertObject(bucket: string, blob: Blob, pre: Precondition) returns (r: Option<Error>)
      requires Valid()
      modifies this
      ensures Valid() && softDeleted == old(softDeleted)
      ensures r == Insertable(old(index), bucket, blob.meta.name, pre)
      ensures r == if bucket !in old(index).buckets then Some(NotFound)
                   else if !pre(Current(old(index), bucket, blob.meta.name), LiveGeneration(old(index), bucket, blob.meta.name))
                   then Some(PreconditionFailed) else None
      ensures r.Some? ==> index == old(index) && log == old(log)
      ensures r.None? ==> index == Absorb(old(index), ObjectInserted(bucket, blob))
                          && log == old(log) + [ObjectInserted(bucket, blob)]
    {
      hide Keyed, SoftNamed, Current, LiveGeneration, KeyOf;
      if bucket !in index.objects {
        return Some(NotFound);
      }
      var name := blob.meta.name;
      if !pre(Current(index, bucket, name), LiveGeneration(index, bucket, name)) {
        return Some(PreconditionFailed);
      }
      KeyedInsert(index, bucket, blob, Put(index.live, bucket, name, blob.meta.generation));
      index := index.(objects := Put(index.objects, bucket, KeyOf(blob), blob),
                      live := Put(index.live, bucket, name, blob.meta.generation));
      Notify(ObjectInserted(bucket, blob));
      return None;
    }

    /** A delete is hard, or keeps a soft-deleted copy, as the bucket's policy says. */
    method DeleteObject(bucket: string, name: string, generation: nat, pre: Precondition) returns (r: Option<Error>)
      requires Valid()
      modifies this
      ensures Valid()
      ensures r == ErrorOf(Find(old(index), bucket, name, generation, pre))
      ensures r.Some? ==> index == old(index) && log == old(log) && softDeleted == old(softDeleted)
      ensures r.None? ==>
                var blob := Find(old(index), bucket, name, generation, pre).value;
                var note := DeleteNote(old(index), bucket, blob);
                && index == Absorb(old(index), note) && log == old(log) + [note]
                && softDeleted == if note.ObjectSoftDeleted? && bucket in old(softDeleted)
                                  then SoftAdd(old(softDeleted), bucket, blob) else old(softDeleted)
      ensures (forall key :: !Means(old(index), bucket, name, generation, key)) ==> r == Some(NotFound)
      ensures forall key :: Means(old(index), bucket, name, generation, key) ==>
                if !Allows(old(index), bucket, key, pre) then r == Some(PreconditionFailed)
                else r.None? && Gone(old(index), index, bucket, key)
                     && log == old(log) + [Report(old(index), bucket, key)]
    {
      FindDecides(index, bucket, name, generation, pre);
      FoundGoes(index, bucket, name, generation, pre);
      var found := Find(index, bucket, name, generation, pre);
      if found.Failure? {
        return Some(found.error);
      }
      RemoveFound(index, bucket, name, generation, pre);
      RemoveGeneration(bucket, found.value, generation == 0 || LiveGeneration(index, bucket, name) == Some(generation));
      return None;
    }

    method RemoveGeneration(bucket: string, blob: Blob, wasLive: bool)
      requires Valid() && bucket in index.buckets
      modifies this
      ensures Valid()
      ensures index == Without(old(index), bucket, blob, wasLive)
      ensures log == old(log) + [DeleteNote(old(index), bucket, blob)]
      ensures softDeleted == if old(index).buckets[bucket].softDelete then SoftAdd(old(softDeleted), bucket, blob)
                             else old(softDeleted)
    {
      hide Keyed, SoftNamed, SoftAdd, Drop;
      KeyedWithout(index, bucket, blob, wasLive);
      SoftAddNamed(softDeleted, bucket, blob);
      DelLiveGeneration(bucket, blob.meta.name, wasLive);
      PopAndReport(bucket, blob);
    }

    method PopAndReport(bucket: string, blob: Blob)
      requires bucket in index.buckets && bucket in index.objects && bucket in softDeleted
      modifies this
      ensures index == old(index).(objects := Drop(old(index).objects, bucket, KeyOf(blob)))
      ensures log == old(log) + [DeleteNote(old(index), bucket, blob)]
      ensures softDeleted == if old(index).buckets[bucket].softDelete then SoftAdd(old(softDeleted), bucket, blob)
                             else old(softDeleted)
    {
      hide SoftAdd, Drop;
      var soft := index.buckets[bucket].softDelete;
      if soft {
        SoftDelete(bucket, blob);
      }
      Pop(bucket, KeyOf(blob));
      if !soft {
        Notify(ObjectDeleted(bucket, KeyOf(blob)));
      }
    }

    method DelLiveGeneration(bucket: string, name: string, wasLive: bool)
      requires bucket in index.live
      modifies this`index
      ensures index == old(index).(live := if wasLive then Drop(old(index).live, bucket, name) else old(index).live)
    {
      if wasLive {
        index := index.(live := Drop(index.live, bucket, name));
      }
    }

    method Pop(bucket: string, key: Key)
      requires bucket in index.objects
      modifies this`index
      ensures index == old(index).(objects := Drop(old(index).objects, bucket, key))
    {
      index := index.(objects := Drop(index.objects, bucket, key));
    }

    method SoftDelete(bucket: string, blob: Blob)
      requires bucket in softDeleted
      modifies this`softDeleted, this`log
      ensures softDeleted == SoftAdd(old(softDeleted), bucket, blob)
      ensures log == old(log) + [ObjectSoftDeleted(bucket, blob)]
    {
      softDeleted := SoftAdd(softDeleted, bucket, blob);
      Notify(ObjectSoftDeleted(bucket, blob));
    }

    /** The callback changes the object in place, under the lock; the store is told only if it returns. */
    method UpdateObject(bucket: string, name: string, generation: nat, update: Blob -> Change<Blob>, pre: Precondition)
      returns (r: Option<Error>)
      requires Valid()
      requires var found := Find(index, bucket, name, generation, pre);
               found.Success? ==> KeyOf(update(found.value).value) == KeyOf(found.value)
      modifies this
      ensures Valid() && softDeleted == old(softDeleted)
      ensures var found := Find(old(index), bucket, name, generation, pre);
              r == if found.Failure? then Some(found.error) else if update(found.value).raised then Some(Raised) else None
      ensures r.Some? ==> log == old(log)
      ensures Find(old(index), bucket, name, generation, pre).Failure? ==> index == old(index)
      ensures Find(old(index), bucket, name, generation, pre).Success? ==>
                var note := ObjectUpdated(bucket, update(Find(old(index), bucket, name, generation, pre).value).value);
                && index == Absorb(old(index), note) && index.live == old(index).live
                && (r.None? ==> log == old(log) + [note])
      ensures (forall key :: !Means(old(index), bucket, name, generation, key)) ==> r == Some(NotFound)
      ensures forall key :: Means(old(index), bucket, name, generation, key) ==>
                if !Allows(old(index), bucket, key, pre) then r == Some(PreconditionFailed) && index == old(index)
                else
                  var change := update(old(index).objects[bucket][key]);
                  && r == (if change.raised then Some(Raised) else None)
                  && index == old(index).(objects := old(index).objects[bucket := old(index).objects[bucket][key := change.value]])
    {
      FindDecides(index, bucket, name, generation, pre);
      var found := Find(index, bucket, name, generation, pre);
      if found.Failure? {
        return Some(found.error);
      }
      var change := update(found.value);
      index := index.(objects := Put(index.objects, bucket, KeyOf(change.value), change.value));
      if change.raised {
        return Some(Raised);
      }
      Notify(ObjectUpdated(bucket, change.value));
      return None;
    }

    /**
     The empty insert of an appendable object, made from within an update of the live object: it is
     refused over an unfinalized one, and the store is told of the insert and then of the old object.
     */
    method InsertAppendable(bucket: string, blob: Blob, pre: Precondition) returns (r: Option<Error>)
      requires Valid() && !blob.meta.finalized
      modifies this
      ensures Valid() && softDeleted == old(softDeleted)
      ensures r == AppendableError(old(index), bucket, blob.meta.name, pre)
      ensures var current := Current(old(index), bucket, blob.meta.name);
              r == if bucket !in old(index).buckets then Some(NotFound)
                   else if !pre(current, LiveGeneration(old(index), bucket, blob.meta.name)) then Some(PreconditionFailed)
                   else if current.Some? && !current.value.meta.finalized then Some(UnfinalizedObject) else None
      ensures r.Some? ==> index == old(index) && log == old(log)
      ensures r.None? ==>
                var current := Current(old(index), bucket, blob.meta.name);
                && index == Absorb(old(index), ObjectInserted(bucket, blob))
                && log == old(log) + [ObjectInserted(bucket, blob)]
                          + if current.Some? then [ObjectUpdated(bucket, current.value)] else []
    {
      hide Keyed, SoftNamed, Absorb, Current, LiveGeneration;
      if bucket !in index.live {
        return Some(NotFound);
      }
      var latest := Current(index, bucket, blob.meta.name);
      if latest.Some? {
        if !pre(latest, LiveGeneration(index, bucket, blob.meta.name)) {
          return Some(PreconditionFailed);
        }
        if !latest.value.meta.finalized {
          return Some(UnfinalizedObject);
        }
      }
      r := InsertObject(bucket, blob, pre);
      if r.None? && latest.Some? {
        Notify(ObjectUpdated(bucket, latest.value));
      }
    }

    /** Drop the copies past their hard-delete time, and report each of them. */
    method RemoveExpired(bucket: string, name: string, expired: Blob -> bool) returns (kept: seq<Blob>)
      requires Valid() && bucket in softDeleted
      modifies this`softDeleted, this`log
      ensures Valid()
      ensures kept == Unexpired(SoftList(old(softDeleted), bucket, name), expired) == SoftList(softDeleted, bucket, name)
      ensures softDeleted == SoftSet(old(softDeleted), bucket, name, kept)
      ensures log == old(log) + Purges(bucket, name, Expired(SoftList(old(softDeleted), bucket, name), expired))
    {
      hide Keyed, SoftNamed, Put, SoftSet, Purges, AllNamed;
      kept := [];
      if name !in softDeleted[bucket] {
        SoftSetNothing(softDeleted, bucket, name, []);
        return;
      }
      var all, gone: seq<Blob> := softDeleted[bucket][name], [];
      for i := 0 to |all|
        invariant kept == Unexpired(all[..i], expired) && gone == Expired(all[..i], expired)
      {
        assert all[..i + 1][..i] == all[..i];
        if expired(all[i]) {
          gone := gone + [all[i]];
        } else {
          kept := kept + [all[i]];
        }
      }
      assert all[..|all|] == all;
      CopiesNamed(softDeleted, bucket, name);
      UnexpiredNamed(all, expired, name);
      SoftSetNamed(softDeleted, bucket, name, kept);
      SoftListSet(softDeleted, bucket, name, kept);
      softDeleted := SoftSet(softDeleted, bucket, name, kept);
      ReportPurged(bucket, name, gone);
    }

    method ReportPurged(bucket: string, name: string, gone: seq<Blob>)
      modifies this`log
      ensures log == old(log) + Purges(bucket, name, gone)
    {
      for i := 0 to |gone|
        invariant log == old(log) + Purges(bucket, name, gone[..i])
      {
        assert gone[..i + 1][..i] == gone[..i];
        Notify(ObjectPurged(bucket, Key(name, gone[i].meta.generation)));
      }
      assert gone[..|gone|] == gone;
    }

    /**
     Restore a soft-deleted generation under the next generation number. Copies past their time are
     purged first, as soon as the request is about a soft-deleted generation at all.
     */
    method RestoreObject(bucket: string, name: string, generation: nat, pre: Precondition, expired: Blob -> bool)
      returns (r: Option<Error>)
      requires Valid()
      modifies this
      ensures Valid()
      ensures r == RestoreError(old(index), old(softDeleted), bucket, name, generation, pre, expired)
      ensures log == old(log) + RestoreNotes(old(index), old(softDeleted), bucket, name, generation, pre, expired)
      ensures softDeleted == AfterRestore(old(index), old(softDeleted), bucket, name, generation, pre, expired)
      ensures index == if r.Some? then old(index) else
                         var kept := Unexpired(SoftList(old(softDeleted), bucket, name), expired);
                         Absorb(old(index), ObjectInserted(bucket, Restored(kept[First(kept, generation)])))
    {
      hide Keyed, SoftNamed, Absorb, SoftList, SoftSet, First, Unexpired, Expired, Purges, OfGeneration, Renumbered, Insertable,
           Restored, Current, LiveGeneration;
      ghost var before := softDeleted;
      if bucket !in index.buckets {
        return Some(NotFound);
      }
      if !index.buckets[bucket].softDelete {
        return Some(InvalidRequest);
      }
      if Key(name, generation) in index.objects[bucket] {
        return Some(NotSoftDeleted);
      }
      var kept := RemoveExpired(bucket, name, expired);
      ghost var purged := log;
      var i := FindCopy(kept, generation);
      if i == |kept| {
        return Some(NotFound);
      }
      r := RestoreCopy(bucket, name, kept, i, pre);
      SoftSetTwice(before, bucket, name, kept, Renumbered(kept, i, r.None?));
      Appended(old(log), Purges(bucket, name, Expired(SoftList(before, bucket, name), expired)), log[|purged|..]);
    }

    method FindCopy(copies: seq<Blob>, generation: nat) returns (i: nat)
      ensures i == First(copies, generation)
    {
      i := 0;
      while i < |copies| && copies[i].meta.generation != generation
        invariant i <= First(copies, generation)
      {
        i := i + 1;
      }
    }

    /** The copy is renumbered before the insert is attempted, and stays so if that is refused. */
    method RestoreCopy(bucket: string, name: string, copies: seq<Blob>, i: nat, pre: Precondition)
      returns (r: Option<Error>)
      requires Valid() && bucket in softDeleted && SoftList(softDeleted, bucket, name) == copies && i < |copies|
      modifies this
      ensures Valid()
      ensures r == Insertable(old(index), bucket, name, pre)
      ensures r.Some? ==> index == old(index) && log == old(log)
      ensures r.None? ==> index == Absorb(old(index), ObjectInserted(bucket, Restored(copies[i])))
                          && log == old(log) + [ObjectInserted(bucket, Restored(copies[i])),
                                                ObjectPurged(bucket, Key(name, copies[i].meta.generation))]
      ensures softDeleted == SoftSet(old(softDeleted), bucket, name, Renumbered(copies, i, r.None?))
    {
      hide OfGeneration, Keyed, SoftNamed, Absorb, SoftSet, Insertable;
      var blob := Restored(copies[i]);
      CopiesNamed(softDeleted, bucket, name);
      RenumberedNames(copies, i, name);
      SoftSetNamed(softDeleted, bucket, name, Renumbered(copies, i, false));
      SoftSetTwice(softDeleted, bucket, name, Renumbered(copies, i, false), Renumbered(copies, i, true));
      softDeleted := SoftSet(softDeleted, bucket, name, Renumbered(copies, i, false));
      r := InsertObject(bucket, blob, pre);
      if r.None? {
        ReportRestored(bucket, name, copies, i);
        TwoNotes(old(log), ObjectInserted(bucket, blob), ObjectPurged(bucket, Key(name, copies[i].meta.generation)));
      }
    }

    /** What is kept are the copies of the restored number, which has just moved on. */
    method ReportRestored(bucket: string, name: string, copies: seq<Blob>, i: nat)
      requires bucket in softDeleted && i < |copies| && AllNamed(copies, name)
      requires SoftNamed(softDeleted)
      modifies this`softDeleted, this`log
      ensures softDeleted == SoftSet(old(softDeleted), bucket, name, Renumbered(copies, i, true)) && SoftNamed(softDeleted)
      ensures log == old(log) + [ObjectPurged(bucket, Key(name, copies[i].meta.generation))]
    {
      hide SoftNamed, SoftSet;
      Notify(ObjectPurged(bucket, Key(name, copies[i].meta.generation)));
      RenumberedNames(copies, i, name);
      SoftSetNamed(softDeleted, bucket, name, Renumbered(copies, i, true));
      softDeleted := SoftSet(softDeleted, bucket, name, Renumbered(copies, i, true));
    }
  }

  lemma Appended(log: seq<Note>, notes: seq<Note>, more: seq<Note>)
    ensures log + notes + more == log + (notes + more)
  {
  }

  lemma TwoNotes(log: seq<Note>, first: Note, second: Note)
    ensures log + [first] + [second] == log + [first, second]
  {
  }

  function DeleteNote(index: Index, bucket: string, blob: Blob): (note: Note)
    ensures note.ObjectDeleted? || note.ObjectSoftDeleted?
  {
    if bucket in index.buckets && index.buckets[bucket].softDelete then ObjectSoftDeleted(bucket, blob)
    else ObjectDeleted(bucket, KeyOf(blob))
  }

  function Without(index: Index, bucket: string, blob: Blob, wasLive: bool): Index
    requires bucket in index.live && bucket in index.objects
  {
    index.(live := if wasLive then Drop(index.live, bucket, blob.meta.name) else index.live,
           objects := Drop(index.objects, bucket, KeyOf(blob)))
  }

  /** One generation is gone, and it is live no more; nothing else is another. */
  ghost predicate Gone(before: Index, after: Index, bucket: string, key: Key)
    requires bucket in before.objects && bucket in before.live
  {
    && after.buckets == before.buckets && after.folders == before.folders
    && after.objects == before.objects[bucket := before.objects[bucket] - {key}]
    && after.live == if key.name in before.live[bucket] && before.live[bucket][key.name] == key.generation
                     then before.live[bucket := before.live[bucket] - {key.name}] else before.live
  }

  /** A delete is reported as soft, with the object, exactly in a bucket with the policy. */
  ghost function Report(index: Index, bucket: string, key: Key): Note
    requires bucket in index.buckets && bucket in index.objects && key in index.objects[bucket]
  {
    if index.buckets[bucket].softDelete then ObjectSoftDeleted(bucket, index.objects[bucket][key]) else ObjectDeleted(bucket, key)
  }

  lemma FoundGoes(index: Index, bucket: string, name: string, generation: nat, pre: Precondition)
    requires index.buckets.Keys == index.objects.Keys == index.live.Keys && Keyed(index)
    ensures var found := Find(index, bucket, name, generation, pre);
            forall key :: found.Success? && Means(index, bucket, name, generation, key) ==>
                            && DeleteNote(index, bucket, found.value) == Report(index, bucket, key)
                            && Gone(index, Absorb(index, DeleteNote(index, bucket, found.value)), bucket, key)
  {
    FindDecides(index, bucket, name, generation, pre);
  }

  lemma KeyedBucket(index: Index, soft: SoftCopies, bucket: BucketMeta)
    requires Keyed(index) && SoftNamed(soft)
    ensures Keyed(Index(index.buckets[bucket.name := bucket], index.objects[bucket.name := map[]],
                        index.live[bucket.name := map[]], index.folders))
    ensures SoftNamed(soft[bucket.name := map[]])
  {
  }

  lemma KeyedInsert(index: Index, bucket: string, blob: Blob, live: map<string, map<string, nat>>)
    requires bucket in index.objects && Keyed(index)
    ensures Keyed(index.(objects := Put(index.objects, bucket, KeyOf(blob), blob), live := live))
  {
  }

  lemma KeyedWithout(index: Index, bucket: string, blob: Blob, wasLive: bool)
    requires bucket in index.live && bucket in index.objects && Keyed(index)
    ensures Keyed(Without(index, bucket, blob, wasLive))
  {
  }

  /** The live entry goes exactly when the generation found is the live one. */
  lemma RemoveFound(index: Index, bucket: string, name: string, generation: nat, pre: Precondition)
    requires index.buckets.Keys == index.objects.Keys == index.live.Keys && Keyed(index)
    requires Find(index, bucket, name, generation, pre).Success?
    ensures var blob := Find(index, bucket, name, generation, pre).value;
            && bucket in index.buckets && blob.meta.name == name
            && Absorb(index, DeleteNote(index, bucket, blob)) ==
               Without(index, bucket, blob, generation == 0 || LiveGeneration(index, bucket, name) == Some(generation))
  {
  }

  function AppendableError(index: Index, bucket: string, name: string, pre: Precondition): Option<Error> {
    var error := Insertable(index, bucket, name, pre);
    var current := Current(index, bucket, name);
    if error.None? && current.Some? && !current.value.meta.finalized then Some(UnfinalizedObject) else error
  }

  // ---- Soft-deleted copies ----

  /** The copies of a bucket's names, oldest first. */
  type SoftCopies = map<string, map<string, seq<Blob>>>

  predicate AllNamed(copies: seq<Blob>, name: string) {
    forall k :: 0 <= k < |copies| ==> copies[k].meta.name == name
  }

  ghost predicate SoftNamed(soft: SoftCopies) {
    forall b, n :: b in soft && n in soft[b] ==> AllNamed(soft[b][n], n)
  }

  function SoftList(soft: SoftCopies, bucket: string, name: string): seq<Blob> {
    if bucket in soft && name in soft[bucket] then soft[bucket][name] else []
  }

  /** The copies of a name, with one more. */
  function SoftAdd(soft: SoftCopies, bucket: string, blob: Blob): (r: SoftCopies)
    requires bucket in soft
    ensures r.Keys == soft.Keys
  {
    Put(soft, bucket, blob.meta.name, SoftList(soft, bucket, blob.meta.name) + [blob])
  }

  /** Other copies for a name that has some. */
  function SoftSet(soft: SoftCopies, bucket: string, name: string, copies: seq<Blob>): (r: SoftCopies)
    requires bucket in soft
    ensures r.Keys == soft.Keys
  {
    if name in soft[bucket] then Put(soft, bucket, name, copies) else soft
  }

  lemma SoftAddNamed(soft: SoftCopies, bucket: string, blob: Blob)
    requires bucket in soft && SoftNamed(soft)
    ensures SoftNamed(SoftAdd(soft, bucket, blob))
  {
  }

  lemma SoftSetNamed(soft: SoftCopies, bucket: string, name: string, copies: seq<Blob>)
    requires bucket in soft && SoftNamed(soft) && AllNamed(copies, name)
    ensures SoftNamed(SoftSet(soft, bucket, name, copies))
  {
  }

  lemma SoftListSet(soft: SoftCopies, bucket: string, name: string, copies: seq<Blob>)
    requires bucket in soft && name in soft[bucket]
    ensures SoftList(SoftSet(soft, bucket, name, copies), bucket, name) == copies
  {
  }

  lemma UnexpiredNamed(copies: seq<Blob>, expired: Blob -> bool, name: string)
    requires AllNamed(copies, name)
    ensures AllNamed(Unexpired(copies, expired), name)
  {
    var kept := Unexpired(copies, expired);
    forall k | 0 <= k < |kept|
      ensures kept[k].meta.name == name
    {
      assert kept[k] in kept;
    }
  }

  lemma CopiesNamed(soft: SoftCopies, bucket: string, name: string)
    requires SoftNamed(soft)
    ensures AllNamed(SoftList(soft, bucket, name), name)
  {
  }

  lemma SoftSetNothing(soft: SoftCopies, bucket: string, name: string, copies: seq<Blob>)
    requires bucket in soft && name !in soft[bucket]
    ensures SoftSet(soft, bucket, name, copies) == soft
  {
  }

  lemma SoftSetTwice(soft: SoftCopies, bucket: string, name: string, first: seq<Blob>, second: seq<Blob>)
    requires bucket in soft
    ensures SoftSet(SoftSet(soft, bucket, name, first), bucket, name, second) == SoftSet(soft, bucket, name, second)
  {
    if name in soft[bucket] {
      assert soft[bucket][name := first][name := second] == soft[bucket][name := second];
    }
  }

  /** The copies whose time has not come, in order. */
  function Unexpired(copies: seq<Blob>, expired: Blob -> bool): (r: seq<Blob>)
    ensures forall blob :: blob in r <==> blob in copies && !expired(blob)
  {
    if copies == [] then []
    else
      var last := copies[|copies| - 1];
      Unexpired(copies[..|copies| - 1], expired) + if expired(last) then [] else [last]
  }

  /** The copies past their time, in order. */
  function Expired(copies: seq<Blob>, expired: Blob -> bool): (r: seq<Blob>)
    ensures forall blob :: blob in r <==> blob in copies && expired(blob)
  {
    if copies == [] then []
    else
      var last := copies[|copies| - 1];
      Expired(copies[..|copies| - 1], expired) + if expired(last) then [last] else []
  }

  /** Both keep the order: they can be taken piece by piece. */
  lemma {:induction false} PieceByPiece(a: seq<Blob>, b: seq<Blob>, expired: Blob -> bool)
    ensures Unexpired(a + b, expired) == Unexpired(a, expired) + Unexpired(b, expired)
    ensures Expired(a + b, expired) == Expired(a, expired) + Expired(b, expired)
  {
    hide Unexpired, Expired;
    if b == [] {
      assert a + b == a;
      NoCopies(expired);
      assert Unexpired(a, expired) + [] == Unexpired(a, expired) && Expired(a, expired) + [] == Expired(a, expired);
    } else {
      PieceByPiece(a, b[..|b| - 1], expired);
      assert a + b == a + b[..|b| - 1] + [b[|b| - 1]];
      OneMoreCopy(a + b[..|b| - 1], b[|b| - 1], expired);
      assert b == b[..|b| - 1] + [b[|b| - 1]];
      OneMoreCopy(b[..|b| - 1], b[|b| - 1], expired);
    }
  }

  lemma NoCopies(expired: Blob -> bool)
    ensures Unexpired([], expired) == [] && Expired([], expired) == []
  {
  }

  lemma OneMoreCopy(copies: seq<Blob>, blob: Blob, expired: Blob -> bool)
    ensures Unexpired(copies + [blob], expired) == Unexpired(copies, expired) + if expired(blob) then [] else [blob]
    ensures Expired(copies + [blob], expired) == Expired(copies, expired) + if expired(blob) then [blob] else []
  {
    assert (copies + [blob])[..|copies|] == copies;
  }

  /** One report for each purged copy, in order. */
  function Purges(bucket: string, name: string, gone: seq<Blob>): (r: seq<Note>)
    ensures |r| == |gone| && forall k :: 0 <= k < |r| ==> r[k] == ObjectPurged(bucket, Key(name, gone[k].meta.generation))
  {
    seq(|gone|, k requires 0 <= k < |gone| => ObjectPurged(bucket, Key(name, gone[k].meta.generation)))
  }

  /** The first copy of a generation, or the number of copies if there is none. */
  function First(copies: seq<Blob>, generation: nat): (i: nat)
    ensures i <= |copies| && (forall k :: 0 <= k < i ==> copies[k].meta.generation != generation)
    ensures i < |copies| ==> copies[i].meta.generation == generation
  {
    if copies == [] then 0
    else var i := First(copies[..|copies| - 1], generation);
         if i == |copies| - 1 && copies[i].meta.generation == generation then i
         else if i == |copies| - 1 then i + 1 else i
  }

  /** A restored copy: the next generation number, a first metageneration. */
  function Restored(blob: Blob): Blob {
    blob.(meta := blob.meta.(generation := blob.meta.generation + 1, metageneration := 1))
  }

  /** It is the same object in everything but these two numbers. */
  lemma RestoredDecided(blob: Blob)
    ensures var after := Restored(blob);
            && KeyOf(after) == Key(blob.meta.name, blob.meta.generation + 1) && after.meta.metageneration == 1
            && after.media == blob.media && after.upload == blob.upload && after.uploadGen == blob.uploadGen
            && after.meta == blob.meta.(generation := after.meta.generation, metageneration := after.meta.metageneration)
  {
  }

  function OfGeneration(blobs: seq<Blob>, generation: nat): (r: seq<Blob>)
    ensures forall blob :: blob in r <==> blob in blobs && blob.meta.generation == generation
  {
    if blobs == [] then []
    else OfGeneration(blobs[..|blobs| - 1], generation) +
         if blobs[|blobs| - 1].meta.generation == generation then [blobs[|blobs| - 1]] else []
  }

  /** The copies after a restore of one: renumbered, and if it succeeded those of the old number only. */
  function Renumbered(copies: seq<Blob>, i: nat, restored: bool): seq<Blob>
    requires i < |copies|
  {
    var renumbered := copies[i := Restored(copies[i])];
    if restored then OfGeneration(renumbered, copies[i].meta.generation) else renumbered
  }

  lemma {:induction false} OfGenerationNamed(copies: seq<Blob>, generation: nat, name: string)
    requires AllNamed(copies, name)
    ensures AllNamed(OfGeneration(copies, generation), name)
  {
    if copies != [] {
      OfGenerationNamed(copies[..|copies| - 1], generation, name);
    }
  }

  lemma RenumberedNames(copies: seq<Blob>, i: nat, name: string)
    requires i < |copies| && AllNamed(copies, name)
    ensures AllNamed(Renumbered(copies, i, false), name) && AllNamed(Renumbered(copies, i, true), name)
  {
    OfGenerationNamed(copies[i := Restored(copies[i])], copies[i].meta.generation, name);
  }

  /** Why a restore is refused. */
  function RestoreError(index: Index, soft: SoftCopies, bucket: string, name: string, generation: nat, pre: Precondition,
                        expired: Blob -> bool): Option<Error>
    requires index.buckets.Keys == index.objects.Keys == index.live.Keys == soft.Keys
  {
    if bucket !in index.buckets then Some(NotFound)
    else if !index.buckets[bucket].softDelete then Some(InvalidRequest)
    else if Key(name, generation) in index.objects[bucket] then Some(NotSoftDeleted)
    else
      var kept := Unexpired(SoftList(soft, bucket, name), expired);
      if First(kept, generation) == |kept| then Some(NotFound) else Insertable(index, bucket, name, pre)
  }

  /** A restore succeeds exactly when there is an unexpired copy to restore, and its insert is allowed. */
  lemma RestoreSucceeds(index: Index, soft: SoftCopies, bucket: string, name: string, generation: nat, pre: Precondition,
                        expired: Blob -> bool)
    requires index.buckets.Keys == index.objects.Keys == index.live.Keys == soft.Keys
    ensures RestoreError(index, soft, bucket, name, generation, pre, expired).None? <==>
              && bucket in index.buckets && index.buckets[bucket].softDelete && Key(name, generation) !in index.objects[bucket]
              && (exists blob :: blob in SoftList(soft, bucket, name) && blob.meta.generation == generation && !expired(blob))
              && pre(Current(index, bucket, name), LiveGeneration(index, bucket, name))
  {
    hide SoftList, Current, LiveGeneration;
    var kept := Unexpired(SoftList(soft, bucket, name), expired);
    if First(kept, generation) < |kept| {
      assert kept[First(kept, generation)] in kept;
    }
  }

  /** A refusal that comes before the copies of the name are looked at. */
  predicate RefusedOutright(index: Index, bucket: string, key: Key)
    requires index.buckets.Keys == index.objects.Keys
  {
    bucket !in index.buckets || !index.buckets[bucket].softDelete || key in index.objects[bucket]
  }

  /** What a restore reports: the copies past their time, then the insert and the number it leaves. */
  function RestoreNotes(index: Index, soft: SoftCopies, bucket: string, name: string, generation: nat, pre: Precondition,
                        expired: Blob -> bool): seq<Note>
    requires index.buckets.Keys == index.objects.Keys == index.live.Keys == soft.Keys
  {
    if RefusedOutright(index, bucket, Key(name, generation)) then []
    else
      var kept := Unexpired(SoftList(soft, bucket, name), expired);
      Purges(bucket, name, Expired(SoftList(soft, bucket, name), expired)) +
      if RestoreError(index, soft, bucket, name, generation, pre, expired).Some? then []
      else [ObjectInserted(bucket, Restored(kept[First(kept, generation)])), ObjectPurged(bucket, Key(name, generation))]
  }

  /** The copies afterwards. */
  function AfterRestore(index: Index, soft: SoftCopies, bucket: string, name: string, generation: nat, pre: Precondition,
                        expired: Blob -> bool): SoftCopies
    requires index.buckets.Keys == index.objects.Keys == index.live.Keys == soft.Keys
  {
    if RefusedOutright(index, bucket, Key(name, generation)) then soft
    else
      var kept := Unexpired(SoftList(soft, bucket, name), expired);
      var i := First(kept, generation);
      SoftSet(soft, bucket, name,
              if i == |kept| then kept
              else Renumbered(kept, i, RestoreError(index, soft, bucket, name, generation, pre, expired).None?))
  }

  ghost predicate Keyed(index: Index) {
    match index
    case Index(buckets, objects, _, _) =>
      && (forall b :: b in buckets ==> buckets[b].name == b)
      && forall b, key :: b in objects && key in objects[b] ==> KeyOf(objects[b][key]) == key
  }
}
