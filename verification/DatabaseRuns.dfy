/** Whole runs of the database: what its notifications tell a store. */
module DatabaseRuns {

  import opened Checksums
  import opened Database
  import opened Resources
  import opened Wrappers

  /** Updates are arbitrary callbacks, as in the source; they may raise after they have changed what they were given. */
  datatype Operation =
    | InsertBucket(bucket: BucketMeta)
    | DeleteBucket(name: string, allowed: BucketMeta -> bool)
    | UpdateBucket(name: string, change: BucketMeta -> Change<BucketMeta>, allowed: BucketMeta -> bool)
    | Clear
    | InsertFolder(name: string, folder: string)
    | DeleteFolder(name: string)
    | RenameFolder(name: string, destination: string)
    | InsertObject(bucketName: string, blob: Blob, pre: Precondition)
    | InsertAppendable(bucketName: string, blob: Blob, pre: Precondition)
    | DeleteObject(bucketName: string, name: string, generation: nat, pre: Precondition)
    | UpdateObject(bucketName: string, name: string, generation: nat, update: Blob -> Change<Blob>, pre: Precondition)
    | RestoreObject(bucketName: string, name: string, generation: nat, pre: Precondition, expired: Blob -> bool)

  /** The state of the database, without the log. */
  datatype State = State(index: Index, soft: SoftCopies)

  const START := State(EMPTY, map[])

  predicate Whole(s: State) {
    match s
    case State(index, soft) => index.buckets.Keys == index.objects.Keys == index.live.Keys == soft.Keys
  }

  /** No callback renames what it is given, and an appendable object begins unfinalized. */
  ghost predicate Proper(op: Operation) {
    match op
    case UpdateBucket(_, change, _) => forall b :: change(b).value.name == b.name
    case UpdateObject(_, _, _, update, _) => forall b :: KeyOf(update(b).value) == KeyOf(b)
    case InsertAppendable(_, blob, _) => !blob.meta.finalized
    case _ => true
  }

  // ---- What an operation does, and what it reports ----

  /** The notifications that would say what happens to the index. */
  function Effect(s: State, op: Operation): seq<Note>
    requires Whole(s)
  {
    var index := s.index;
    match op
    case InsertBucket(bucket) => if bucket.name in index.buckets then [] else [BucketInserted(bucket)]
    case DeleteBucket(name, allowed) => if Deletable(index, name, allowed).Some? then [] else [BucketDeleted(name)]
    case UpdateBucket(name, change, allowed) =>
      if name !in index.buckets || !allowed(index.buckets[name]) then [] else [BucketUpdated(change(index.buckets[name]).value)]
    case Clear => [Cleared]
    case InsertFolder(name, folder) => if name in index.folders then [] else [FolderInserted(name, folder)]
    case DeleteFolder(name) => if name !in index.folders then [] else [FolderDeleted(name)]
    case RenameFolder(name, destination) =>
      if name !in index.folders || destination in index.folders then []
      else [FolderRenamed(name, destination, index.folders[name])]
    case InsertObject(b, blob, pre) => if Insertable(index, b, blob.meta.name, pre).Some? then [] else [ObjectInserted(b, blob)]
    case InsertAppendable(b, blob, pre) =>
      if AppendableError(index, b, blob.meta.name, pre).Some? then [] else [ObjectInserted(b, blob)]
    case DeleteObject(b, name, generation, pre) =>
      var found := Find(index, b, name, generation, pre);
      if found.Failure? then [] else [DeleteNote(index, b, found.value)]
    case UpdateObject(b, name, generation, update, pre) =>
      var found := Find(index, b, name, generation, pre);
      if found.Failure? then [] else [ObjectUpdated(b, update(found.value).value)]
    case RestoreObject(b, name, generation, pre, expired) => RestoreNotes(index, s.soft, b, name, generation, pre, expired)
  }

  /** What an appendable insert reports besides: the object it replaces. */
  function Repeated(s: State, op: Operation): seq<Note> {
    if op.InsertAppendable? && AppendableError(s.index, op.bucketName, op.blob.meta.name, op.pre).None?
       && Current(s.index, op.bucketName, op.blob.meta.name).Some?
    then [ObjectUpdated(op.bucketName, Current(s.index, op.bucketName, op.blob.meta.name).value)] else []
  }

  /** The operation comes to a callback that raises an error. */
  predicate Raises(s: State, op: Operation) {
    match op
    case UpdateBucket(name, change, allowed) =>
      name in s.index.buckets && allowed(s.index.buckets[name]) && change(s.index.buckets[name]).raised
    case UpdateObject(b, name, generation, update, pre) =>
      var found := Find(s.index, b, name, generation, pre);
      found.Success? && update(found.value).raised
    case _ => false
  }

  /** What the operation reports: nothing if a callback raises. */
  function Reports(s: State, op: Operation): seq<Note>
    requires Whole(s)
  {
    if Raises(s, op) then [] else Effect(s, op) + Repeated(s, op)
  }

  function AbsorbAll(index: Index, notes: seq<Note>): Index {
    if notes == [] then index else Absorb(AbsorbAll(index, notes[..|notes| - 1]), notes[|notes| - 1])
  }

  function SoftAfter(s: State, op: Operation): SoftCopies
    requires Whole(s)
  {
    match op
    case InsertBucket(bucket) => if bucket.name in s.index.buckets then s.soft else s.soft[bucket.name := map[]]
    case DeleteBucket(name, allowed) => if Deletable(s.index, name, allowed).Some? then s.soft else s.soft - {name}
    case Clear => map[]
    case DeleteObject(b, name, generation, pre) =>
      var found := Find(s.index, b, name, generation, pre);
      if found.Success? && DeleteNote(s.index, b, found.value).ObjectSoftDeleted? && b in s.soft
      then SoftAdd(s.soft, b, found.value) else s.soft
    case RestoreObject(b, name, generation, pre, expired) => AfterRestore(s.index, s.soft, b, name, generation, pre, expired)
    case _ => s.soft
  }

  function After(s: State, op: Operation): State
    requires Whole(s)
  {
    State(AbsorbAll(s.index, Effect(s, op)), SoftAfter(s, op))
  }

  lemma AbsorbOne(index: Index, note: Note)
    ensures AbsorbAll(index, [note]) == Absorb(index, note)
  {
    assert [note][..0] == [];
    assert AbsorbAll(index, []) == index;
  }

  // ---- What stands behind an update or a delete ----

  /** A delete whose precondition does not hold of the generation it means does nothing, and is not reported; nor is an update. */
  lemma RefusedDoesNothing(s: State, op: Operation, key: Key)
    requires Whole(s) && (op.DeleteObject? || op.UpdateObject?) && Means(s.index, op.bucketName, op.name, op.generation, key)
    requires !Allows(s.index, op.bucketName, key, op.pre)
    ensures After(s, op) == s && Reports(s, op) == []
  {
    FindDecides(s.index, op.bucketName, op.name, op.generation, op.pre);
  }

  /** A delete whose precondition holds takes that generation and reports it, and one that means nothing does nothing. */
  lemma GrantedDelete(s: State, op: Operation)
    requires Whole(s) && Keyed(s.index) && op.DeleteObject?
    ensures (forall key :: !Means(s.index, op.bucketName, op.name, op.generation, key)) ==> After(s, op) == s && Reports(s, op) == []
    ensures forall key :: Means(s.index, op.bucketName, op.name, op.generation, key) && Allows(s.index, op.bucketName, key, op.pre) ==>
              Gone(s.index, After(s, op).index, op.bucketName, key) && Reports(s, op) == [Report(s.index, op.bucketName, key)]
  {
    hide Find, DeleteNote, Absorb;
    FindDecides(s.index, op.bucketName, op.name, op.generation, op.pre);
    FoundGoes(s.index, op.bucketName, op.name, op.generation, op.pre);
    var found := Find(s.index, op.bucketName, op.name, op.generation, op.pre);
    if found.Success? {
      AbsorbOne(s.index, DeleteNote(s.index, op.bucketName, found.value));
    }
  }

  /** An update whose precondition holds leaves what its callback makes of that generation, and reports it if it returns. */
  lemma GrantedUpdate(s: State, op: Operation, key: Key)
    requires Whole(s) && op.UpdateObject? && Means(s.index, op.bucketName, op.name, op.generation, key)
    requires Allows(s.index, op.bucketName, key, op.pre)
    requires KeyOf(op.update(s.index.objects[op.bucketName][key]).value) == key
    ensures var change := op.update(s.index.objects[op.bucketName][key]);
            && After(s, op).index ==
               s.index.(objects := s.index.objects[op.bucketName := s.index.objects[op.bucketName][key := change.value]])
            && Reports(s, op) == if change.raised then [] else [ObjectUpdated(op.bucketName, change.value)]
  {
    hide Find;
    FindDecides(s.index, op.bucketName, op.name, op.generation, op.pre);
    AbsorbOne(s.index, ObjectUpdated(op.bucketName, op.update(s.index.objects[op.bucketName][key]).value));
  }

  lemma {:induction false} AbsorbMore(index: Index, notes: seq<Note>, more: seq<Note>)
    ensures AbsorbAll(index, notes + more) == AbsorbAll(AbsorbAll(index, notes), more)
  {
    if more == [] {
      assert notes + more == notes;
    } else {
      AbsorbMore(index, notes, more[..|more| - 1]);
      assert (notes + more)[..|notes + more| - 1] == notes + more[..|more| - 1];
    }
  }

  lemma {:induction false} ReplayAbsorbs(log: seq<Note>, notes: seq<Note>)
    ensures Replay(log + notes) == AbsorbAll(Replay(log), notes)
  {
    if notes == [] {
      assert log + notes == log;
    } else {
      ReplayAbsorbs(log, notes[..|notes| - 1]);
      assert (log + notes)[..|log + notes| - 1] == log + notes[..|notes| - 1];
    }
  }

  lemma {:induction false} AbsorbPurges(index: Index, notes: seq<Note>)
    requires forall k :: 0 <= k < |notes| ==> notes[k].ObjectPurged?
    ensures AbsorbAll(index, notes) == index
  {
    if notes != [] {
      AbsorbPurges(index, notes[..|notes| - 1]);
    }
  }

  /** A restore changes the index by its insert only. */
  lemma AbsorbRestore(index: Index, purges: seq<Note>, insert: Note, purge: Note)
    requires (forall k :: 0 <= k < |purges| ==> purges[k].ObjectPurged?) && purge.ObjectPurged?
    ensures AbsorbAll(index, purges) == index
    ensures AbsorbAll(index, purges + [insert, purge]) == Absorb(index, insert)
  {
    hide Absorb;
    AbsorbPurges(index, purges);
    AbsorbMore(index, purges, [insert, purge]);
    AbsorbMore(index, [insert], [purge]);
    assert [insert] + [purge] == [insert, purge];
    AbsorbOne(index, insert);
    AbsorbPurges(Absorb(index, insert), [purge]);
  }

  /**
   After an appendable insert the store is told of the new object and then of the old one. That is
   the truth exactly when the two have different generations.
   */
  lemma AppendableReport(index: Index, bucket: string, blob: Blob, current: Blob)
    requires bucket in index.objects && bucket in index.live
    requires Generation(index, bucket, KeyOf(current)) == Some(current)
    ensures var inserted := Absorb(index, ObjectInserted(bucket, blob));
            Absorb(inserted, ObjectUpdated(bucket, current)) == inserted <==>
            KeyOf(blob) != KeyOf(current) || blob == current
  {
    var inserted := Absorb(index, ObjectInserted(bucket, blob));
    var told := Absorb(inserted, ObjectUpdated(bucket, current));
    assert told.objects[bucket][KeyOf(current)] == current;
    if KeyOf(blob) == KeyOf(current) {
      assert inserted.objects[bucket][KeyOf(blob)] == blob;
    } else {
      assert inserted.objects[bucket][KeyOf(current)] == current;
    }
    if inserted.objects[bucket][KeyOf(current)] == current {
      SetSame(inserted.objects[bucket], KeyOf(current));
      SetSame(inserted.objects, bucket);
      assert told == inserted;
    }
  }

  lemma SetSame<K, V>(m: map<K, V>, key: K)
    requires key in m
    ensures m[key := m[key]] == m
  {
  }

  /** The object or the bucket is as it was before its callback. */
  predicate Unchanged(s: State, op: Operation)
    requires Raises(s, op)
  {
    match op
    case UpdateBucket(name, change, _) => change(s.index.buckets[name]).value == s.index.buckets[name]
    case UpdateObject(b, name, generation, update, pre) =>
      var found := Find(s.index, b, name, generation, pre);
      update(found.value).value == found.value
  }

  /**
   An appendable object is not given the number of the object it replaces, and a callback that raises
   has changed nothing.
   */
  predicate Legal(s: State, op: Operation) {
    && (op.InsertAppendable? && AppendableError(s.index, op.bucketName, op.blob.meta.name, op.pre).None? ==>
          var current := Current(s.index, op.bucketName, op.blob.meta.name);
          current.Some? ==> KeyOf(op.blob) != KeyOf(current.value))
    && (Raises(s, op) ==> Unchanged(s, op))
  }

  /** From an index that the notifications tell, they tell the next one exactly when the operation is legal. */
  lemma StepTold(s: State, op: Operation, log: seq<Note>)
    requires Whole(s) && Keyed(s.index) && Proper(op) && Replay(log) == s.index
    ensures Replay(log + Reports(s, op)) == After(s, op).index <==> Legal(s, op)
  {
    hide Effect, Absorb, SoftAfter, AppendableError, Unchanged, Raises;
    if Raises(s, op) {
      assert log + [] == log;
      RaisedTold(s, op);
    } else {
      ReplayAbsorbs(log, Effect(s, op));
      if Repeated(s, op) != [] {
        ReplacementTold(s, op, log);
      }
      assert log + (Effect(s, op) + Repeated(s, op)) == log + Effect(s, op) + Repeated(s, op);
      assert Repeated(s, op) == [] ==> log + Effect(s, op) + Repeated(s, op) == log + Effect(s, op);
    }
  }

  /** What nobody is told of is no change exactly when the callback changed nothing. */
  lemma RaisedTold(s: State, op: Operation)
    requires Whole(s) && Keyed(s.index) && Proper(op) && Raises(s, op)
    ensures After(s, op).index == s.index <==> Unchanged(s, op)
    ensures !op.InsertAppendable?
  {
    hide Absorb, SoftAfter, Find;
    OneNoteAtMost(s, op);
    if op.UpdateBucket? {
      var bucket := s.index.buckets[op.name];
      BucketPutBack(s.index, op.change(bucket).value);
    } else {
      var found := Find(s.index, op.bucketName, op.name, op.generation, op.pre).value;
      FoundThere(s.index, op.bucketName, op.name, op.generation, op.pre);
      ObjectPutBack(s.index, op.bucketName, found, op.update(found).value);
    }
  }

  lemma FoundThere(index: Index, b: string, name: string, generation: nat, pre: Precondition)
    requires Keyed(index) && Find(index, b, name, generation, pre).Success?
    ensures var blob := Find(index, b, name, generation, pre).value; Generation(index, b, KeyOf(blob)) == Some(blob)
  {
  }

  lemma BucketPutBack(index: Index, bucket: BucketMeta)
    requires bucket.name in index.buckets
    ensures Absorb(index, BucketUpdated(bucket)) == index <==> bucket == index.buckets[bucket.name]
  {
    SetSame(index.buckets, bucket.name);
    assert Absorb(index, BucketUpdated(bucket)).buckets[bucket.name] == bucket;
  }

  lemma ObjectPutBack(index: Index, b: string, before: Blob, after: Blob)
    requires Generation(index, b, KeyOf(before)) == Some(before) && KeyOf(after) == KeyOf(before)
    ensures Absorb(index, ObjectUpdated(b, after)) == index <==> after == before
  {
    SetSame(index.objects[b], KeyOf(before));
    SetSame(index.objects, b);
    assert Absorb(index, ObjectUpdated(b, after)).objects[b][KeyOf(after)] == after;
  }

  lemma ReplacementTold(s: State, op: Operation, log: seq<Note>)
    requires Whole(s) && Keyed(s.index) && Proper(op) && Replay(log) == s.index && Repeated(s, op) != []
    ensures Replay(log + Effect(s, op) + Repeated(s, op)) == AbsorbAll(s.index, Effect(s, op)) <==> Legal(s, op)
  {
    hide Absorb;
    var InsertAppendable(b, blob, pre) := op;
    var current := Current(s.index, b, blob.meta.name).value;
    assert Effect(s, op) == [ObjectInserted(b, blob)] && Repeated(s, op) == [ObjectUpdated(b, current)];
    AbsorbOne(s.index, ObjectInserted(b, blob));
    ReplayAbsorbs(log, Effect(s, op));
    ReplayAbsorbs(log + Effect(s, op), Repeated(s, op));
    AbsorbOne(Replay(log + Effect(s, op)), ObjectUpdated(b, current));
    ReplacedIsFinalized(s.index, b, blob.meta.name, pre);
    AppendableReport(s.index, b, blob, current);
  }

  lemma ReplacedIsFinalized(index: Index, b: string, name: string, pre: Precondition)
    requires index.buckets.Keys == index.objects.Keys == index.live.Keys && Keyed(index)
    requires AppendableError(index, b, name, pre).None? && Current(index, b, name).Some?
    ensures var current := Current(index, b, name).value;
            && b in index.objects && b in index.live && current.meta.finalized
            && Generation(index, b, KeyOf(current)) == Some(current)
  {
  }

  // ---- One operation ----

  /** The database is in this state. */
  ghost predicate In(db: Database, s: State)
    reads db
  {
    db.Valid() && Whole(s) && db.index == s.index && db.softDeleted == s.soft
  }

  /** The database does what `After` says, and reports it. */
  method Execute(db: Database, op: Operation, ghost s: State)
    requires In(db, s) && Proper(op)
    modifies db
    ensures In(db, After(s, op)) && db.log == old(db.log) + Reports(s, op)
  {
    hide AbsorbAll, Absorb, Effect, Repeated, SoftAfter, Proper;
    match op {
      case InsertBucket(_) => ExecuteOnBucket(db, op, s);
      case DeleteBucket(_, _) => ExecuteOnBucket(db, op, s);
      case UpdateBucket(_, _, _) => ExecuteOnBucket(db, op, s);
      case Clear => ExecuteOnFolder(db, op, s);
      case InsertFolder(_, _) => ExecuteOnFolder(db, op, s);
      case DeleteFolder(_) => ExecuteOnFolder(db, op, s);
      case RenameFolder(_, _) => ExecuteOnFolder(db, op, s);
      case InsertObject(_, _, _) => ExecuteInsert(db, op, s);
      case InsertAppendable(_, _, _) => ExecuteInsert(db, op, s);
      case RestoreObject(_, _, _, _, _) => ExecuteRestore(db, op, s);
      case DeleteObject(_, _, _, _) => ExecuteDelete(db, op, s);
      case UpdateObject(_, _, _, _, _) => ExecuteUpdate(db, op, s);
    }
  }

  method ExecuteOnBucket(db: Database, op: Operation, ghost s: State)
    requires In(db, s) && Proper(op) && (op.InsertBucket? || op.DeleteBucket? || op.UpdateBucket?)
    modifies db
    ensures In(db, After(s, op)) && db.log == old(db.log) + Reports(s, op)
  {
    hide AbsorbAll, Absorb, Keyed, SoftNamed;
    OneNoteAtMost(s, op);
    BucketsNamed(s.index);
    match op {
      case InsertBucket(bucket) => var _ := db.InsertBucket(bucket);
      case DeleteBucket(name, allowed) => var _ := db.DeleteBucket(name, allowed);
      case UpdateBucket(name, change, allowed) => var _ := db.UpdateBucket(name, change, allowed);
    }
  }

  lemma BucketsNamed(index: Index)
    requires Keyed(index)
    ensures forall b :: b in index.buckets ==> index.buckets[b].name == b
  {
  }

  method ExecuteOnFolder(db: Database, op: Operation, ghost s: State)
    requires In(db, s) && Proper(op) && (op.Clear? || op.InsertFolder? || op.DeleteFolder? || op.RenameFolder?)
    modifies db
    ensures In(db, After(s, op)) && db.log == old(db.log) + Reports(s, op)
  {
    hide AbsorbAll, Absorb, Keyed, SoftNamed;
    OneNoteAtMost(s, op);
    match op {
      case Clear => db.Clear();
        ClearedIndex(s.index);
      case InsertFolder(name, folder) => var _ := db.InsertFolder(name, folder);
      case DeleteFolder(name) => var _ := db.DeleteFolder(name);
      case RenameFolder(name, destination) => var _ := db.RenameFolder(name, destination);
    }
  }

  lemma ClearedIndex(index: Index)
    ensures Absorb(index, Cleared) == EMPTY
  {
  }

  /** Every operation but a restore says what happened in one notification or none. */
  lemma OneNoteAtMost(s: State, op: Operation)
    requires Whole(s) && !op.RestoreObject?
    ensures |Effect(s, op)| <= 1
    ensures AbsorbAll(s.index, Effect(s, op)) == if Effect(s, op) == [] then s.index else Absorb(s.index, Effect(s, op)[0])
  {
    hide Absorb;
    if Effect(s, op) != [] {
      AbsorbOne(s.index, Effect(s, op)[0]);
      assert Effect(s, op) == [Effect(s, op)[0]];
    }
  }

  method ExecuteInsert(db: Database, op: Operation, ghost s: State)
    requires In(db, s) && Proper(op) && (op.InsertObject? || op.InsertAppendable?)
    modifies db
    ensures In(db, After(s, op)) && db.log == old(db.log) + Reports(s, op)
  {
    hide AbsorbAll, Absorb, Keyed, SoftNamed, Insertable, AppendableError, Current, LiveGeneration;
    match op {
      case InsertObject(_, _, _) => ExecutePlainInsert(db, op, s);
      case InsertAppendable(bucket, blob, pre) =>
        OneNoteAtMost(s, op);
        var _ := db.InsertAppendable(bucket, blob, pre);
    }
  }

  method ExecutePlainInsert(db: Database, op: Operation, ghost s: State)
    requires In(db, s) && op.InsertObject?
    modifies db
    ensures In(db, After(s, op)) && db.log == old(db.log) + Reports(s, op)
  {
    hide AbsorbAll, Absorb, Keyed, SoftNamed, Insertable, Current, LiveGeneration;
    OneNoteAtMost(s, op);
    var _ := db.InsertObject(op.bucketName, op.blob, op.pre);
  }

  method ExecuteDelete(db: Database, op: Operation, ghost s: State)
    requires In(db, s) && op.DeleteObject?
    modifies db
    ensures In(db, After(s, op)) && db.log == old(db.log) + Reports(s, op)
  {
    hide AbsorbAll, Absorb, Keyed, SoftNamed, Find, Means, Allows, Gone, Report, SoftAdd;
    OneNoteAtMost(s, op);
    var _ := db.DeleteObject(op.bucketName, op.name, op.generation, op.pre);
  }

  method ExecuteUpdate(db: Database, op: Operation, ghost s: State)
    requires In(db, s) && Proper(op) && op.UpdateObject?
    modifies db
    ensures In(db, After(s, op)) && db.log == old(db.log) + Reports(s, op)
  {
    hide AbsorbAll, Absorb, Keyed, SoftNamed, Find, Means, Allows;
    OneNoteAtMost(s, op);
    var _ := db.UpdateObject(op.bucketName, op.name, op.generation, op.update, op.pre);
  }

  method ExecuteRestore(db: Database, op: Operation, ghost s: State)
    requires In(db, s) && op.RestoreObject?
    modifies db
    ensures In(db, After(s, op)) && db.log == old(db.log) + Reports(s, op)
  {
    hide AbsorbAll, Absorb, Keyed, SoftNamed, AfterRestore, RestoreNotes, RestoreError;
    var RestoreObject(bucket, name, generation, pre, expired) := op;
    RestoreTold(s, bucket, name, generation, pre, expired);
    var _ := db.RestoreObject(bucket, name, generation, pre, expired);
  }

  lemma RestoreTold(s: State, bucket: string, name: string, generation: nat, pre: Precondition, expired: Blob -> bool)
    requires Whole(s)
    ensures AbsorbAll(s.index, RestoreNotes(s.index, s.soft, bucket, name, generation, pre, expired)) ==
            if RestoreError(s.index, s.soft, bucket, name, generation, pre, expired).Some? then s.index else
              var kept := Unexpired(SoftList(s.soft, bucket, name), expired);
              Absorb(s.index, ObjectInserted(bucket, Restored(kept[First(kept, generation)])))
  {
    hide Absorb, SoftList, Unexpired, Expired, First, Restored, Insertable;
    var copies := SoftList(s.soft, bucket, name);
    var kept := Unexpired(copies, expired);
    var purges := Purges(bucket, name, Expired(copies, expired));
    AbsorbPurges(s.index, purges);
    assert purges + [] == purges;
    if RestoreError(s.index, s.soft, bucket, name, generation, pre, expired).None? {
      AbsorbRestore(s.index, purges, ObjectInserted(bucket, Restored(kept[First(kept, generation)])),
                    ObjectPurged(bucket, Key(name, generation)));
    }
  }

  // ---- Runs ----

  /** Every bucket keeps its dictionaries. */
  lemma StaysWhole(s: State, op: Operation)
    requires Whole(s)
    ensures Whole(After(s, op))
  {
    hide Effect, SoftAfter, AbsorbAll, Absorb;
    if op.RestoreObject? {
      var RestoreObject(b, name, generation, pre, expired) := op;
      RestoreTold(s, b, name, generation, pre, expired);
      RestoreIs(s, op);
      var kept := Unexpired(SoftList(s.soft, b, name), expired);
      if First(kept, generation) < |kept| {
        InsertKeepsBuckets(s.index, b, Restored(kept[First(kept, generation)]));
      }
    } else {
      OneNoteAtMost(s, op);
      OneNoteWhole(s, op);
    }
  }

  lemma RestoreIs(s: State, op: Operation)
    requires Whole(s) && op.RestoreObject?
    ensures var RestoreObject(b, name, generation, pre, expired) := op;
            && Effect(s, op) == RestoreNotes(s.index, s.soft, b, name, generation, pre, expired)
            && SoftAfter(s, op) == AfterRestore(s.index, s.soft, b, name, generation, pre, expired)
            && SoftAfter(s, op).Keys == s.soft.Keys
  {
    hide RestoreNotes, RestoreError, Unexpired, First, SoftSet, Renumbered;
  }

  lemma InsertKeepsBuckets(index: Index, b: string, blob: Blob)
    ensures var after := Absorb(index, ObjectInserted(b, blob));
            && after.buckets == index.buckets && after.objects.Keys == index.objects.Keys && after.live.Keys == index.live.Keys
  {
  }

  lemma OneNoteWhole(s: State, op: Operation)
    requires Whole(s) && !op.RestoreObject?
    ensures var notes := Effect(s, op);
            Whole(State(if notes == [] then s.index else Absorb(s.index, notes[0]), SoftAfter(s, op)))
  {
    hide Find, Insertable, AppendableError, SoftList, Absorb, DeleteNote, Whole;
    var notes := Effect(s, op);
    if op.InsertBucket? || op.DeleteBucket? || op.Clear? {
      BucketNoteWhole(s, op);
    } else {
      if notes != [] {
        NoteKeepsBuckets(s.index, notes[0]);
      }
      SameBuckets(s, if notes == [] then s.index else Absorb(s.index, notes[0]), SoftAfter(s, op));
    }
  }

  lemma SameBuckets(s: State, index: Index, soft: SoftCopies)
    requires Whole(s) && soft.Keys == s.soft.Keys && index.buckets.Keys == s.index.buckets.Keys
    requires index.objects.Keys == s.index.objects.Keys && index.live.Keys == s.index.live.Keys
    ensures Whole(State(index, soft))
  {
  }

  lemma BucketNoteWhole(s: State, op: Operation)
    requires Whole(s) && (op.InsertBucket? || op.DeleteBucket? || op.Clear?)
    ensures var notes := Effect(s, op);
            Whole(State(if notes == [] then s.index else Absorb(s.index, notes[0]), SoftAfter(s, op)))
  {
  }

  lemma NoteKeepsBuckets(index: Index, note: Note)
    requires !note.BucketInserted? && !note.BucketDeleted? && !note.Cleared?
    ensures var after := Absorb(index, note);
            && after.buckets.Keys == index.buckets.Keys && after.objects.Keys == index.objects.Keys
            && after.live.Keys == index.live.Keys
  {
    hide Put, Drop;
  }

  /** The state after a run of operations. */
  function StateAfter(ops: seq<Operation>): (s: State)
    ensures Whole(s)
  {
    if ops == [] then START
    else
      StaysWhole(StateAfter(ops[..|ops| - 1]), ops[|ops| - 1]);
      After(StateAfter(ops[..|ops| - 1]), ops[|ops| - 1])
  }

  lemma StartState(ops: seq<Operation>)
    ensures StateAfter(ops[..0]) == START
  {
  }

  lemma Unrolled(ops: seq<Operation>, k: nat)
    requires k < |ops|
    ensures StateAfter(ops[..k + 1]) == After(StateAfter(ops[..k]), ops[k])
  {
    hide After;
    assert ops[..k + 1][..k] == ops[..k];
  }

  /** Every operation of the run is legal in the state it meets. */
  ghost predicate LegalRun(ops: seq<Operation>) {
    forall k :: 0 <= k < |ops| ==> Legal(StateAfter(ops[..k]), ops[k])
  }

  /**
   Any run of operations from an empty database: as long as no appendable object takes the number of
   the object it replaces, and no callback raises after a change, replaying the notifications gives the index.
   */
  method Run(ops: seq<Operation>) returns (db: Database)
    requires forall k :: 0 <= k < |ops| ==> Proper(ops[k])
    ensures fresh(db) && db.Valid() && StateAfter(ops) == State(db.index, db.softDeleted)
    ensures LegalRun(ops) ==> Replay(db.log) == db.index
  {
    hide After, Reports, Replay, Legal, Proper, Keyed, SoftNamed, StateAfter;
    db := new Database();
    EmptyTold();
    StartState(ops);
    for k := 0 to |ops|
      invariant fresh(db) && db.Valid() && StateAfter(ops[..k]) == State(db.index, db.softDeleted)
      invariant LegalRun(ops[..k]) ==> Replay(db.log) == db.index
    {
      ghost var s := State(db.index, db.softDeleted);
      Unrolled(ops, k);
      LegalSoFar(ops, k);
      if LegalRun(ops[..k + 1]) {
        StepTold(s, ops[k], db.log);
      }
      Execute(db, ops[k], s);
    }
    assert ops[..|ops|] == ops;
  }

  lemma EmptyTold()
    ensures Replay([]) == EMPTY
  {
  }

  lemma LegalSoFar(ops: seq<Operation>, k: nat)
    requires k < |ops|
    ensures LegalRun(ops[..k + 1]) ==> LegalRun(ops[..k]) && Legal(StateAfter(ops[..k]), ops[k])
  {
    hide Legal;
    var more := ops[..k + 1];
    if LegalRun(more) {
      forall j | 0 <= j < k
        ensures Legal(StateAfter(ops[..k][..j]), ops[..k][j])
      {
        assert more[..j] == ops[..k][..j];
        assert more[j] == ops[j];
      }
      assert more[..k] == ops[..k] && more[k] == ops[k];
    }
  }

  // ---- A run whose notifications do not tell its index ----

  const BUCKET := BucketMeta("b", 1, true, map[])
  const FIRST := Blob(ObjectMeta("o", 1, 1, 0, 0, Md5([]), true, map[]), InMemory([]), false, 0)
  const SECOND := Blob(ObjectMeta("o", 2, 1, 0, 0, Md5([]), false, map[]), InMemory([]), true, 1)

  function BucketWith(objects: map<Key, Blob>, live: map<string, nat>, copies: map<string, seq<Blob>>): State {
    State(Index(map["b" := BUCKET], map["b" := objects], map["b" := live], map[]), map["b" := copies])
  }

  function Anything(): Precondition { (b, g) => true }
  function Never(): Blob -> bool { b => false }

  /** Insert generation 1, delete it, restore it as 2: the next number handed out is 2 as well. */
  function Reused(): (ops: seq<Operation>) {
    [InsertBucket(BUCKET), InsertObject("b", FIRST, Anything()), DeleteObject("b", "o", 0, Anything()),
     RestoreObject("b", "o", 1, Anything(), Never()), InsertAppendable("b", SECOND, Anything())]
  }

  lemma MakesBucket()
    ensures After(START, InsertBucket(BUCKET)) == BucketWith(map[], map[], map[])
  {
    OneNoteAtMost(START, InsertBucket(BUCKET));
  }

  lemma InsertedInto(objects: map<Key, Blob>, live: map<string, nat>, copies: map<string, seq<Blob>>, blob: Blob)
    ensures var s := BucketWith(objects, live, copies);
            Absorb(s.index, ObjectInserted("b", blob)) ==
            BucketWith(objects[KeyOf(blob) := blob], live[blob.meta.name := blob.meta.generation], copies).index
  {
  }

  lemma InsertsInto(objects: map<Key, Blob>, live: map<string, nat>, copies: map<string, seq<Blob>>, blob: Blob)
    requires blob.meta.name !in live
    ensures var s := BucketWith(objects, live, copies);
            var after := BucketWith(objects[KeyOf(blob) := blob], live[blob.meta.name := blob.meta.generation], copies);
            && After(s, InsertObject("b", blob, Anything())) == after
            && After(s, InsertAppendable("b", blob, Anything())) == after
  {
    hide AbsorbAll, Absorb, KeyOf;
    var s := BucketWith(objects, live, copies);
    InsertedInto(objects, live, copies, blob);
    OneNoteAtMost(s, InsertObject("b", blob, Anything()));
    OneNoteAtMost(s, InsertAppendable("b", blob, Anything()));
    assert Current(s.index, "b", blob.meta.name) == None;
  }

  lemma FindsLive(s: State, name: string, blob: Blob)
    requires LiveGeneration(s.index, "b", name) == Some(blob.meta.generation)
    requires Generation(s.index, "b", Key(name, blob.meta.generation)) == Some(blob)
    ensures Find(s.index, "b", name, 0, Anything()) == Success(blob)
  {
  }

  function OneMore(copies: map<string, seq<Blob>>, blob: Blob): map<string, seq<Blob>> {
    copies[blob.meta.name := (if blob.meta.name in copies then copies[blob.meta.name] else []) + [blob]]
  }

  lemma DeletedFrom(objects: map<Key, Blob>, live: map<string, nat>, copies: map<string, seq<Blob>>, blob: Blob)
    requires blob.meta.name in live && live[blob.meta.name] == blob.meta.generation
    ensures var s := BucketWith(objects, live, copies);
            && Absorb(s.index, ObjectSoftDeleted("b", blob)) ==
               BucketWith(objects - {KeyOf(blob)}, live - {blob.meta.name}, copies).index
            && SoftAdd(s.soft, "b", blob) == map["b" := OneMore(copies, blob)]
  {
  }

  lemma DeletesFrom(objects: map<Key, Blob>, live: map<string, nat>, copies: map<string, seq<Blob>>, blob: Blob)
    requires KeyOf(blob) in objects && objects[KeyOf(blob)] == blob
    requires blob.meta.name in live && live[blob.meta.name] == blob.meta.generation
    ensures After(BucketWith(objects, live, copies), DeleteObject("b", blob.meta.name, 0, Anything())) ==
            BucketWith(objects - {KeyOf(blob)}, live - {blob.meta.name}, OneMore(copies, blob))
  {
    hide AbsorbAll, Absorb, SoftAdd, Find, OneMore;
    var s, op := BucketWith(objects, live, copies), DeleteObject("b", blob.meta.name, 0, Anything());
    FindsLive(s, blob.meta.name, blob);
    DeletedFrom(objects, live, copies, blob);
    OneNoteAtMost(s, op);
    assert Effect(s, op) == [ObjectSoftDeleted("b", blob)];
  }

  lemma {:induction false} AllKept(copies: seq<Blob>)
    ensures Unexpired(copies, Never()) == copies
  {
    if copies != [] {
      var init, last := copies[..|copies| - 1], copies[|copies| - 1];
      AllKept(init);
      assert Unexpired(copies, Never()) == init + [last] == copies;
    }
  }

  lemma RestoresInto(objects: map<Key, Blob>, live: map<string, nat>, copies: map<string, seq<Blob>>, name: string, generation: nat)
    requires Key(name, generation) !in objects && name in copies && First(copies[name], generation) < |copies[name]|
    ensures var s := BucketWith(objects, live, copies);
            After(s, RestoreObject("b", name, generation, Anything(), Never())).index ==
            Absorb(s.index, ObjectInserted("b", Restored(copies[name][First(copies[name], generation)])))
  {
    hide AbsorbAll, Absorb, Unexpired, First, Restored;
    var s := BucketWith(objects, live, copies);
    RestoreTold(s, "b", name, generation, Anything(), Never());
    AllKept(copies[name]);
    assert SoftList(s.soft, "b", name) == copies[name];
    assert RestoreError(s.index, s.soft, "b", name, generation, Anything(), Never()) == None;
  }

  lemma RestoredIsCurrent(objects: map<Key, Blob>, live: map<string, nat>, copies: map<string, seq<Blob>>, blob: Blob)
    ensures var index := Absorb(BucketWith(objects, live, copies).index, ObjectInserted("b", blob));
            Current(index, "b", blob.meta.name) == Some(blob) && Generation(index, "b", KeyOf(blob)) == Some(blob)
    ensures objects == map[] ==> Keyed(Absorb(BucketWith(objects, live, copies).index, ObjectInserted("b", blob)))
  {
  }

  lemma StateDeleted()
    ensures StateAfter(Reused()[..3]) == BucketWith(map[], map[], OneMore(map[], FIRST))
  {
    hide After, StateAfter, OneMore;
    var ops := Reused();
    StartState(ops);
    Unrolled(ops, 0);
    Unrolled(ops, 1);
    Unrolled(ops, 2);
    MakesBucket();
    InsertsInto(map[], map[], map[], FIRST);
    var objects: map<Key, Blob>, live: map<string, nat> := map[], map[];
    DeletesFrom(objects[Key("o", 1) := FIRST], live["o" := 1], map[], FIRST);
    assert objects[Key("o", 1) := FIRST] - {Key("o", 1)} == objects && live["o" := 1] - {"o"} == live;
  }

  lemma StatesReused()
    ensures var s := StateAfter(Reused()[..4]);
            Keyed(s.index) && Current(s.index, "b", "o") == Some(Restored(FIRST))
  {
    hide After, Absorb, Current, StateAfter, Keyed, First;
    Unrolled(Reused(), 3);
    StateDeleted();
    var copies := OneMore(map[], FIRST);
    FirstOfOne(copies["o"], FIRST);
    RestoresInto(map[], map[], copies, "o", 1);
    RestoredIsCurrent(map[], map[], copies, Restored(FIRST));
  }

  lemma FirstOfOne(copies: seq<Blob>, blob: Blob)
    requires copies == [blob]
    ensures First(copies, blob.meta.generation) == 0
  {
    assert First(copies[..0], blob.meta.generation) == 0;
  }

  /** The first four operations are told, the last one is not: its report ends with the restored object. */
  lemma RestoredNumberReused(log: seq<Note>)
    requires Replay(log) == StateAfter(Reused()[..4]).index
    ensures (forall k :: 0 <= k < 5 ==> Proper(Reused()[k])) && LegalRun(Reused()[..4])
    ensures var s, op := StateAfter(Reused()[..4]), Reused()[4];
            Replay(log + Reports(s, op)) != After(s, op).index
  {
    hide Replay, After, Effect, Repeated, StateAfter, Keyed;
    var ops := Reused();
    StatesReused();
    var s := StateAfter(ops[..4]);
    assert ops[4] == InsertAppendable("b", SECOND, Anything());
    assert !Legal(s, ops[4]);
    StepTold(s, ops[4], log);
  }

  // ---- Runs in which a callback raises ----

  /** An update that merges new values into what is stored and then finds them invalid. */
  function Spoiled(attributes: map<string, string>): map<string, string> { attributes["k" := "v"] }
  function SpoilBucket(): BucketMeta -> Change<BucketMeta> {
    (b: BucketMeta) => Change(b.(attributes := Spoiled(b.attributes)), true)
  }
  function SpoilObject(): Blob -> Change<Blob> {
    (b: Blob) => Change(b.(meta := b.meta.(attributes := Spoiled(b.meta.attributes))), true)
  }
  function Everyone(): BucketMeta -> bool { b => true }

  function RaisingBucket(): seq<Operation> {
    [InsertBucket(BUCKET), UpdateBucket("b", SpoilBucket(), Everyone())]
  }

  function RaisingObject(): seq<Operation> {
    [InsertBucket(BUCKET), InsertObject("b", FIRST, Anything()), UpdateObject("b", "o", 0, SpoilObject(), Anything())]
  }

  lemma OneIsMore(ops: seq<Operation>)
    requires |ops| > 1 && ops[0] == InsertBucket(BUCKET)
    ensures StateAfter(ops[..1]) == BucketWith(map[], map[], map[])
  {
    hide After, StateAfter;
    StartState(ops);
    Unrolled(ops, 0);
    MakesBucket();
  }

  /** Inserts and deletes are always legal, but for appendable ones. */
  lemma LegalInserts(ops: seq<Operation>)
    requires forall k :: 0 <= k < |ops| ==> !ops[k].InsertAppendable? && !ops[k].UpdateBucket? && !ops[k].UpdateObject?
    ensures LegalRun(ops)
  {
    hide StateAfter;
  }

  lemma OneObject()
    ensures var s := StateAfter(RaisingObject()[..2]);
            Keyed(s.index) && Find(s.index, "b", "o", 0, Anything()) == Success(FIRST)
  {
    hide After, StateAfter;
    OneIsMore(RaisingObject());
    Unrolled(RaisingObject(), 1);
    InsertsInto(map[], map[], map[], FIRST);
    FindsLive(StateAfter(RaisingObject()[..2]), "o", FIRST);
  }

  /** The bucket's new attributes are in the index, and nobody is told of them. */
  lemma RaisedBucketUpdateUntold(log: seq<Note>)
    requires Replay(log) == StateAfter(RaisingBucket()[..1]).index
    ensures (forall k :: 0 <= k < 2 ==> Proper(RaisingBucket()[k])) && LegalRun(RaisingBucket()[..1])
    ensures var s, op := StateAfter(RaisingBucket()[..1]), RaisingBucket()[1];
            Replay(log + Reports(s, op)) != After(s, op).index
  {
    hide Replay, After, Reports, StateAfter;
    var ops := RaisingBucket();
    OneIsMore(ops);
    var s := StateAfter(ops[..1]);
    assert "k" in Spoiled(BUCKET.attributes) && "k" !in BUCKET.attributes;
    assert !Unchanged(s, ops[1]);
    StepTold(s, ops[1], log);
  }

  /** The same for an object. */
  lemma RaisedObjectUpdateUntold(log: seq<Note>)
    requires Replay(log) == StateAfter(RaisingObject()[..2]).index
    ensures (forall k :: 0 <= k < 3 ==> Proper(RaisingObject()[k])) && LegalRun(RaisingObject()[..2])
    ensures var s, op := StateAfter(RaisingObject()[..2]), RaisingObject()[2];
            Replay(log + Reports(s, op)) != After(s, op).index
  {
    hide Replay, After, Reports, StateAfter, Find, LegalRun, Keyed;
    var ops := RaisingObject();
    LegalInserts(ops[..2]);
    OneObject();
    var s := StateAfter(ops[..2]);
    assert "k" in Spoiled(FIRST.meta.attributes) && "k" !in FIRST.meta.attributes;
    assert !Unchanged(s, ops[2]);
    StepTold(s, ops[2], log);
  }
}
