/**
 Who may write an appendable object: write handles and takeover (gcs/upload.py), over every run of
 the database. Nothing here depends on what a store does with the notifications.
 */
module Writers {

  import opened Checksums
  import opened Database
  import opened DatabaseRuns
  import opened Resources
  import opened Wrappers

  /** The database, and the last generation number handed out. */
  datatype Process = Process(db: State, generation: nat)

  datatype Step =
    | Manage(op: Operation)
    | Insert(bucketName: string, name: string, media: MediaRef, size: nat, crc: bv32, md5: Md5,
             attributes: map<string, string>, pre: Precondition)
    | StartAppendable(bucketName: string, name: string, media: MediaRef, attributes: map<string, string>, pre: Precondition)
    | TakeOver(bucketName: string, name: string, generation: nat)
    | Checkpoint(bucketName: string, key: Key, media: MediaRef, size: nat, crc: bv32)
    | Finish(bucketName: string, key: Key, media: MediaRef, size: nat)
    | Edit(bucketName: string, name: string, generation: nat, edit: ObjectMeta -> Change<ObjectMeta>, pre: Precondition)
    | Delete(bucketName: string, name: string, generation: nat, pre: Precondition)
    | Restore(bucketName: string, name: string, generation: nat, pre: Precondition, expired: Blob -> bool)

  const BEGIN := Process(START, 0)

  function Always(): Precondition {
    (blob, live) => true
  }

  /** A takeover issues the next handle only if the generation it found is the live one. */
  function Bumped(index: Index, bucket: string, blob: Blob): Blob {
    if LiveGeneration(index, bucket, blob.meta.name) == Some(blob.meta.generation) then TakenOver(blob) else blob
  }

  /** The operation on the database that a step is. */
  function OperationOf(p: Process, step: Step): Operation {
    match step
    case Manage(op) => op
    case Insert(b, name, media, size, crc, md5, attributes, pre) =>
      InsertObject(b, NewBlob(Key(name, p.generation + 1), media, size, crc, md5, false, attributes), pre)
    case StartAppendable(b, name, media, attributes, pre) =>
      InsertAppendable(b, NewBlob(Key(name, p.generation + 1), media, 0, 0, Md5([]), true, attributes), pre)
    case TakeOver(b, name, generation) =>
      UpdateObject(b, name, generation, blob => Change(Bumped(p.db.index, b, blob), false), Always())
    case Checkpoint(b, key, media, size, crc) =>
      UpdateObject(b, key.name, key.generation, blob => Change(Recorded(blob, media, size, crc), false), Always())
    case Finish(b, key, media, size) =>
      UpdateObject(b, key.name, key.generation, blob => Change(Closed(blob, media, size), false), Always())
    case Edit(b, name, generation, edit, pre) =>
      UpdateObject(b, name, generation, (blob: Blob) => Change(blob.(meta := edit(blob.meta).value), edit(blob.meta).raised), pre)
    case Delete(b, name, generation, pre) => DeleteObject(b, name, generation, pre)
    case Restore(b, name, generation, pre, expired) => RestoreObject(b, name, generation, pre, expired)
  }

  /** What the callers keep to: metadata edits, also those that raise, leave the key and the finalized mark alone. */
  ghost predicate Fair(step: Step) {
    match step
    case Manage(op) =>
      && (op.InsertBucket? || op.DeleteBucket? || op.UpdateBucket? || op.Clear? || op.InsertFolder? || op.DeleteFolder?
          || op.RenameFolder?)
      && Proper(op)
    case Edit(_, _, _, edit, _) =>
      forall meta :: var after := edit(meta).value;
                     after.name == meta.name && after.generation == meta.generation && after.finalized == meta.finalized
    case _ => true
  }

  function Next(p: Process, step: Step): (after: Process)
    requires Whole(p.db)
    ensures Whole(after.db) && p.generation <= after.generation
  {
    StaysWhole(p.db, OperationOf(p, step));
    Process(After(p.db, OperationOf(p, step)), if step.Insert? || step.StartAppendable? then p.generation + 1 else p.generation)
  }

  // ---- What every process keeps ----

  /** An object has an upload attached exactly while it is not finalized, and then a handle of at least 1. */
  predicate Attached(blob: Blob) {
    (blob.upload <==> !blob.meta.finalized) && (blob.upload ==> blob.uploadGen >= 1)
  }

  ghost predicate AllAttached(index: Index) {
    match index
    case Index(_, objects, _, _) => forall b, key :: b in objects && key in objects[b] ==> Attached(objects[b][key])
  }

  predicate CopiesAttached(copies: seq<Blob>, name: string) {
    forall k :: 0 <= k < |copies| ==> Attached(copies[k]) && copies[k].meta.name == name
  }

  ghost predicate SoftAttached(s: State) {
    match s
    case State(_, soft) => forall b, n :: b in soft && n in soft[b] ==> CopiesAttached(soft[b][n], n)
  }

  ghost predicate Sound(p: Process) {
    Whole(p.db) && Keyed(p.db.index) && AllAttached(p.db.index) && SoftAttached(p.db)
  }

  /** A notification that leaves the index sound. */
  predicate NoteSound(note: Note) {
    match note
    case ObjectInserted(_, blob) => Attached(blob)
    case ObjectUpdated(_, blob) => Attached(blob)
    case _ => true
  }

  lemma AbsorbSound(index: Index, note: Note)
    requires Keyed(index) && AllAttached(index) && NoteSound(note)
    ensures Keyed(Absorb(index, note)) && AllAttached(Absorb(index, note))
  {
    hide Attached;
  }

  /** The object a request means, from a sound index. */
  lemma FoundSound(index: Index, b: string, name: string, generation: nat, pre: Precondition)
    requires Keyed(index) && AllAttached(index) && Find(index, b, name, generation, pre).Success?
    ensures var blob := Find(index, b, name, generation, pre).value;
            && Attached(blob) && blob.meta.name == name && (generation == 0 || blob.meta.generation == generation)
            && Generation(index, b, KeyOf(blob)) == Some(blob)
            && (generation == 0 ==> LiveGeneration(index, b, name) == Some(blob.meta.generation))
  {
    hide Attached;
  }

  /** The one notification of a step that is not a restore. */
  lemma ToldSound(p: Process, step: Step)
    requires Sound(p) && Fair(step) && !step.Restore?
    ensures forall note :: note in Effect(p.db, OperationOf(p, step)) ==> NoteSound(note)
  {
    hide Keyed, AllAttached, SoftAttached, Find, Insertable, AppendableError, Deletable;
    var op := OperationOf(p, step);
    if op.UpdateObject? {
      var found := Find(p.db.index, op.bucketName, op.name, op.generation, op.pre);
      if found.Success? {
        FoundSound(p.db.index, op.bucketName, op.name, op.generation, op.pre);
      }
    }
  }

  lemma SoftAddAttached(s: State, b: string, blob: Blob)
    requires SoftAttached(s) && Attached(blob) && b in s.soft
    ensures SoftAttached(s.(soft := SoftAdd(s.soft, b, blob)))
  {
    hide Attached;
  }

  lemma SoftSetAttached(s: State, b: string, name: string, copies: seq<Blob>)
    requires SoftAttached(s) && CopiesAttached(copies, name) && b in s.soft
    ensures SoftAttached(s.(soft := SoftSet(s.soft, b, name, copies)))
  {
    hide Attached;
  }

  lemma ListAttached(s: State, b: string, name: string)
    requires SoftAttached(s)
    ensures CopiesAttached(SoftList(s.soft, b, name), name)
  {
  }

  lemma KeptAttached(copies: seq<Blob>, name: string, expired: Blob -> bool)
    requires CopiesAttached(copies, name)
    ensures CopiesAttached(Unexpired(copies, expired), name)
  {
    hide Attached;
    var kept := Unexpired(copies, expired);
    forall k | 0 <= k < |kept|
      ensures Attached(kept[k]) && kept[k].meta.name == name
    {
      assert kept[k] in kept;
    }
  }

  lemma {:induction false} OfGenerationAttached(copies: seq<Blob>, name: string, generation: nat)
    requires CopiesAttached(copies, name)
    ensures CopiesAttached(OfGeneration(copies, generation), name)
  {
    hide Attached;
    if copies != [] {
      OfGenerationAttached(copies[..|copies| - 1], name, generation);
    }
  }

  lemma RenumberedAttached(copies: seq<Blob>, name: string, i: nat, restored: bool)
    requires CopiesAttached(copies, name) && i < |copies|
    ensures CopiesAttached(Renumbered(copies, i, restored), name)
    ensures Attached(Restored(copies[i])) && copies[i].meta.name == name
  {
    OfGenerationAttached(copies[i := Restored(copies[i])], name, copies[i].meta.generation);
  }

  lemma RestoreSound(p: Process, step: Step)
    requires Sound(p) && step.Restore?
    ensures Sound(Next(p, step))
  {
    hide AbsorbAll, Absorb, Keyed, AllAttached, SoftAttached, AfterRestore, RestoreNotes, RestoreError, SoftAfter, Effect, Unexpired, First,
         SoftList;
    var Restore(b, name, generation, pre, expired) := step;
    RestoreIndexSound(p.db, b, name, generation, pre, expired);
    RestoreCopiesSound(p.db, b, name, generation, pre, expired);
    RestoreIs(p.db, OperationOf(p, step));
    assert Next(p, step).db.index == AbsorbAll(p.db.index, Effect(p.db, OperationOf(p, step)));
    assert Next(p, step).db.soft == SoftAfter(p.db, OperationOf(p, step));
    SoftOnly(p.db, Next(p, step).db);
  }

  lemma RestoreIndexSound(s: State, b: string, name: string, generation: nat, pre: Precondition, expired: Blob -> bool)
    requires Whole(s) && Keyed(s.index) && AllAttached(s.index) && SoftAttached(s)
    ensures var after := AbsorbAll(s.index, RestoreNotes(s.index, s.soft, b, name, generation, pre, expired));
            Keyed(after) && AllAttached(after)
  {
    hide AbsorbAll, Absorb, Keyed, AllAttached, SoftAttached, CopiesAttached, Attached, SoftList, Unexpired, First, Renumbered,
         RestoreNotes, Restored, RestoreError;
    RestoreTold(s, b, name, generation, pre, expired);
    RestoreNeedsCopy(s, b, name, generation, pre, expired);
    var copies := SoftList(s.soft, b, name);
    var kept := Unexpired(copies, expired);
    ListAttached(s, b, name);
    KeptAttached(copies, name, expired);
    var i := First(kept, generation);
    if i < |kept| {
      RenumberedAttached(kept, name, i, true);
      AbsorbSound(s.index, ObjectInserted(b, Restored(kept[i])));
    }
  }

  lemma RestoreCopiesSound(s: State, b: string, name: string, generation: nat, pre: Precondition, expired: Blob -> bool)
    requires Whole(s) && SoftAttached(s)
    ensures SoftAttached(s.(soft := AfterRestore(s.index, s.soft, b, name, generation, pre, expired)))
  {
    hide SoftAttached, CopiesAttached, Attached, SoftList, SoftSet, Unexpired, First, Renumbered, Restored, RestoreError;
    var copies := SoftList(s.soft, b, name);
    var kept := Unexpired(copies, expired);
    ListAttached(s, b, name);
    KeptAttached(copies, name, expired);
    var i := First(kept, generation);
    if !RefusedOutright(s.index, b, Key(name, generation)) {
      if i < |kept| {
        RenumberedAttached(kept, name, i, true);
        RenumberedAttached(kept, name, i, false);
        SoftSetAttached(s, b, name, Renumbered(kept, i, true));
        SoftSetAttached(s, b, name, Renumbered(kept, i, false));
      } else {
        SoftSetAttached(s, b, name, kept);
      }
    }
  }

  lemma RestoreNeedsCopy(s: State, b: string, name: string, generation: nat, pre: Precondition, expired: Blob -> bool)
    requires Whole(s)
    ensures RestoreError(s.index, s.soft, b, name, generation, pre, expired).None? ==>
              First(Unexpired(SoftList(s.soft, b, name), expired), generation) < |Unexpired(SoftList(s.soft, b, name), expired)|
  {
    hide Unexpired, First, SoftList, Insertable;
  }

  /** The index plays no part in what copies there are. */
  lemma SoftOnly(s: State, after: State)
    ensures SoftAttached(s.(soft := after.soft)) == SoftAttached(after)
  {
  }

  lemma SoftAfterSound(p: Process, step: Step)
    requires Sound(p) && Fair(step) && !step.Restore?
    ensures SoftAttached(p.db.(soft := SoftAfter(p.db, OperationOf(p, step))))
  {
    hide Keyed, AllAttached, Find, Insertable, AppendableError, Deletable, Attached, SoftAdd, DeleteNote;
    var op := OperationOf(p, step);
    if op.DeleteObject? {
      var found := Find(p.db.index, op.bucketName, op.name, op.generation, op.pre);
      if found.Success? && op.bucketName in p.db.soft {
        FoundSound(p.db.index, op.bucketName, op.name, op.generation, op.pre);
        SoftAddAttached(p.db, op.bucketName, found.value);
      }
    }
  }

  /** Every step of every process keeps objects and their writers together. */
  lemma StepKeeps(p: Process, step: Step)
    requires Sound(p) && Fair(step)
    ensures Sound(Next(p, step))
  {
    hide AbsorbAll, Absorb, Keyed, AllAttached, SoftAttached, Effect, SoftAfter, OperationOf, Fair;
    var op := OperationOf(p, step);
    if step.Restore? {
      RestoreSound(p, step);
    } else {
      NotRestore(p, step);
      OneNoteAtMost(p.db, op);
      ToldSound(p, step);
      if Effect(p.db, op) != [] {
        AbsorbSound(p.db.index, Effect(p.db, op)[0]);
      }
      SoftAfterSound(p, step);
      SoftOnly(p.db, After(p.db, op));
    }
  }

  lemma NotRestore(p: Process, step: Step)
    requires Fair(step) && !step.Restore?
    ensures !OperationOf(p, step).RestoreObject?
  {
  }

  // ---- Handles ----

  /** Whether a stream that presents this handle is let in. */
  predicate Opens(p: Process, b: string, key: Key, handle: nat) {
    match Generation(p.db.index, b, key)
    case None => false
    case Some(blob) => !blob.meta.finalized && blob.uploadGen == handle
  }

  /** The handle is out of date: the object is finished or gone, or has a later handle. */
  predicate Fenced(p: Process, b: string, key: Key, handle: nat) {
    match Generation(p.db.index, b, key)
    case None => true
    case Some(blob) => blob.meta.finalized || handle < blob.uploadGen
  }

  /** A generation that was there before: still being written only if it was, and with no older handle. */
  predicate Onward(before: Option<Blob>, after: Option<Blob>) {
    match after
    case None => true
    case Some(blob) =>
      before.Some? && (blob.meta.finalized || (!before.value.meta.finalized && before.value.uploadGen <= blob.uploadGen))
  }

  /** The step brings back this generation from the soft-deleted copies. */
  predicate Restores(step: Step, b: string, key: Key) {
    step.Restore? && step.bucketName == b && step.name == key.name && step.generation + 1 == key.generation
  }

  /** The step makes a new object, of this bucket and name, that is given this very number. */
  predicate Numbers(p: Process, step: Step, b: string, key: Key) {
    (step.Insert? || step.StartAppendable?) && step.bucketName == b && step.name == key.name && p.generation + 1 == key.generation
  }

  /** A notification that takes a generation onward, or leaves it alone. */
  predicate NoteOnward(index: Index, note: Note, b: string, key: Key) {
    match note
    case ObjectInserted(c, blob) => (c, KeyOf(blob)) != (b, key)
    case ObjectUpdated(c, blob) => (c, KeyOf(blob)) == (b, key) ==> Onward(Generation(index, b, key), Some(blob))
    case _ => true
  }

  lemma AbsorbMoves(index: Index, note: Note, b: string, key: Key)
    requires NoteOnward(index, note, b, key)
    ensures Onward(Generation(index, b, key), Generation(Absorb(index, note), b, key))
  {
  }

  lemma Stays(before: Option<Blob>)
    ensures Onward(before, before)
  {
  }

  lemma UpdateOnward(p: Process, step: Step, b: string, key: Key)
    requires Sound(p) && Fair(step) && OperationOf(p, step).UpdateObject? && !step.Manage?
    ensures var op := OperationOf(p, step);
            var found := Find(p.db.index, op.bucketName, op.name, op.generation, op.pre);
            found.Success? && (op.bucketName, KeyOf(op.update(found.value).value)) == (b, key) ==>
              Onward(Generation(p.db.index, b, key), Some(op.update(found.value).value))
  {
    hide Keyed, AllAttached, SoftAttached, Find, LiveGeneration;
    var op := OperationOf(p, step);
    if Find(p.db.index, op.bucketName, op.name, op.generation, op.pre).Success? {
      FoundSound(p.db.index, op.bucketName, op.name, op.generation, op.pre);
    }
  }

  lemma ToldOnward(p: Process, step: Step, b: string, key: Key)
    requires Sound(p) && Fair(step) && !Numbers(p, step, b, key) && !step.Restore?
    ensures forall note :: note in Effect(p.db, OperationOf(p, step)) ==> NoteOnward(p.db.index, note, b, key)
  {
    hide Keyed, AllAttached, SoftAttached, Find, Insertable, AppendableError, Deletable, Generation, Onward, DeleteNote, LiveGeneration;
    if OperationOf(p, step).UpdateObject? {
      UpdateOnward(p, step, b, key);
    }
  }

  lemma OperationMoves(s: State, op: Operation, b: string, key: Key)
    requires Whole(s) && !op.RestoreObject?
    requires forall note :: note in Effect(s, op) ==> NoteOnward(s.index, note, b, key)
    ensures Onward(Generation(s.index, b, key), Generation(After(s, op).index, b, key))
  {
    hide AbsorbAll, Absorb, Effect, SoftAfter, NoteOnward, Generation, Onward;
    Stays(Generation(s.index, b, key));
    OneNoteAtMost(s, op);
    if Effect(s, op) != [] {
      AbsorbMoves(s.index, Effect(s, op)[0], b, key);
    }
  }

  /**
   No step brings a generation back, reopens it, or takes its handle down, but for a restore under its
   number and a new object that is given its number.
   */
  lemma StepMoves(p: Process, step: Step, b: string, key: Key)
    requires Sound(p) && Fair(step) && !Restores(step, b, key) && !Numbers(p, step, b, key)
    ensures Onward(Generation(p.db.index, b, key), Generation(Next(p, step).db.index, b, key))
  {
    hide After, Keyed, AllAttached, SoftAttached, Generation, Onward, Fair, OperationOf, NoteOnward;
    if step.Restore? {
      RestoreMoves(p, step, b, key);
    } else {
      NotRestore(p, step);
      ToldOnward(p, step, b, key);
      OperationMoves(p.db, OperationOf(p, step), b, key);
    }
  }

  /** A restore inserts the first copy of its number that is kept, renumbered, or changes nothing. */
  lemma RestoredIs(p: Process, step: Step)
    requires Whole(p.db) && step.Restore?
    ensures var kept := Unexpired(SoftList(p.db.soft, step.bucketName, step.name), step.expired);
            var i, after := First(kept, step.generation), Next(p, step);
            && after.generation == p.generation
            && if RestoreError(p.db.index, p.db.soft, step.bucketName, step.name, step.generation, step.pre, step.expired).Some?
               then after.db.index == p.db.index
               else i < |kept| && after.db.index == Absorb(p.db.index, ObjectInserted(step.bucketName, Restored(kept[i])))
  {
    hide AbsorbAll, Absorb, RestoreNotes, RestoreError, Unexpired, SoftList, First, SoftAfter, Restored;
    var Restore(b, name, generation, pre, expired) := step;
    RestoreNeedsCopy(p.db, b, name, generation, pre, expired);
    RestoreTold(p.db, b, name, generation, pre, expired);
    assert Effect(p.db, OperationOf(p, step)) == RestoreNotes(p.db.index, p.db.soft, b, name, generation, pre, expired);
  }

  lemma RestoreMoves(p: Process, step: Step, b: string, key: Key)
    requires Sound(p) && step.Restore? && !Restores(step, b, key)
    ensures Onward(Generation(p.db.index, b, key), Generation(Next(p, step).db.index, b, key))
  {
    hide Absorb, Keyed, AllAttached, SoftAttached, RestoreError, Generation, Onward, Unexpired, First, SoftList, Next;
    Stays(Generation(p.db.index, b, key));
    RestoredIs(p, step);
    ListAttached(p.db, step.bucketName, step.name);
    KeptAttached(SoftList(p.db.soft, step.bucketName, step.name), step.name, step.expired);
    var kept := Unexpired(SoftList(p.db.soft, step.bucketName, step.name), step.expired);
    var i := First(kept, step.generation);
    if i < |kept| {
      AbsorbMoves(p.db.index, ObjectInserted(step.bucketName, Restored(kept[i])), b, key);
    }
  }

  /** Over an object that is still being written an appendable insert is refused: the index stays as it is. */
  lemma StartRefused(p: Process, b: string, name: string, media: MediaRef, attributes: map<string, string>, pre: Precondition)
    requires Whole(p.db) && Current(p.db.index, b, name).Some? && !Current(p.db.index, b, name).value.meta.finalized
    ensures Next(p, StartAppendable(b, name, media, attributes, pre)).db == p.db
  {
    hide Absorb, Current;
    OneNoteAtMost(p.db, OperationOf(p, StartAppendable(b, name, media, attributes, pre)));
  }

  /** An appendable insert into a bucket that is there, over nothing or a finished object: the first handle opens the new number, and only that. */
  lemma StartOpens(p: Process, b: string, name: string, media: MediaRef, attributes: map<string, string>, pre: Precondition)
    requires Sound(p) && b in p.db.index.buckets
    requires pre(Current(p.db.index, b, name), LiveGeneration(p.db.index, b, name))
    requires Current(p.db.index, b, name).Some? ==> Current(p.db.index, b, name).value.meta.finalized
    ensures var after, key := Next(p, StartAppendable(b, name, media, attributes, pre)), Key(name, p.generation + 1);
            LiveGeneration(after.db.index, b, name) == Some(key.generation) && forall handle :: Opens(after, b, key, handle) <==> handle == 1
  {
    hide Next, Absorb, Keyed, AllAttached, SoftAttached, Current, LiveGeneration;
    StartInserts(p, b, name, media, attributes, pre);
    var blob := NewBlob(Key(name, p.generation + 1), media, 0, 0, Md5([]), true, attributes);
    InsertedIs(p.db.index, b, blob);
    InsertedIsLive(p.db.index, b, blob);
  }

  lemma StartInserts(p: Process, b: string, name: string, media: MediaRef, attributes: map<string, string>, pre: Precondition)
    requires Whole(p.db) && b in p.db.index.buckets
    requires pre(Current(p.db.index, b, name), LiveGeneration(p.db.index, b, name))
    requires Current(p.db.index, b, name).Some? ==> Current(p.db.index, b, name).value.meta.finalized
    ensures Next(p, StartAppendable(b, name, media, attributes, pre)).db.index ==
            Absorb(p.db.index, ObjectInserted(b, NewBlob(Key(name, p.generation + 1), media, 0, 0, Md5([]), true, attributes)))
  {
    hide AbsorbAll, Absorb, Current, LiveGeneration, Insertable, AppendableError, SoftAfter;
    Accepted(p.db.index, b, name, pre);
    OneNoteAtMost(p.db, OperationOf(p, StartAppendable(b, name, media, attributes, pre)));
  }

  lemma Accepted(index: Index, b: string, name: string, pre: Precondition)
    requires index.buckets.Keys == index.objects.Keys && b in index.buckets && pre(Current(index, b, name), LiveGeneration(index, b, name))
    requires Current(index, b, name).Some? ==> Current(index, b, name).value.meta.finalized
    ensures AppendableError(index, b, name, pre).None?
  {
  }

  /** After the last checkpoint no handle opens that number. */
  lemma FinishCloses(p: Process, b: string, key: Key, media: MediaRef, size: nat)
    requires Sound(p) && 1 <= key.generation
    ensures forall handle :: !Opens(Next(p, Finish(b, key, media, size)), b, key, handle)
  {
    hide AbsorbAll, Absorb, SoftAttached, SoftAfter;
    OneNoteAtMost(p.db, OperationOf(p, Finish(b, key, media, size)));
    if Generation(p.db.index, b, key).Some? {
      GenerationSound(p.db.index, b, key);
      UpdatedIs(p.db.index, b, Closed(Generation(p.db.index, b, key).value, media, size));
    }
  }

  /** Nor does one after a delete that is not refused. */
  lemma DeleteCloses(p: Process, b: string, key: Key, pre: Precondition)
    requires Sound(p) && 1 <= key.generation
    requires b in p.db.index.objects && key in p.db.index.objects[b] ==> Allows(p.db.index, b, key, pre)
    ensures forall handle :: !Opens(Next(p, Delete(b, key.name, key.generation, pre)), b, key, handle)
  {
    hide Allows, Absorb, AbsorbAll, Effect, SoftAfter, AllAttached, SoftAttached, Keyed, Find, Reports;
    var op := OperationOf(p, Delete(b, key.name, key.generation, pre));
    GrantedDelete(p.db, op);
    if b in p.db.index.objects && key in p.db.index.objects[b] {
      assert Means(p.db.index, b, key.name, key.generation, key);
    }
  }

  /**
   A takeover of the live generation issues the next handle and puts every handle issued before out of
   date. A takeover of any other generation does nothing: the last handle still lets its holder in.
   */
  lemma TakeOverFences(p: Process, b: string, name: string, generation: nat) returns (after: Process)
    requires Sound(p) && 1 <= generation
    requires var blob := Generation(p.db.index, b, Key(name, generation)); blob.Some? && !blob.value.meta.finalized
    ensures after == Next(p, TakeOver(b, name, generation))
    ensures var key, last := Key(name, generation), Generation(p.db.index, b, Key(name, generation)).value.uploadGen;
            && last >= 1 && Opens(p, b, key, last)
            && (LiveGeneration(p.db.index, b, name) == Some(generation) <==> !Opens(after, b, key, last))
            && if LiveGeneration(p.db.index, b, name) == Some(generation)
               then Opens(after, b, key, last + 1) && forall handle :: 0 <= handle <= last ==> Fenced(after, b, key, handle)
               else Generation(after.db.index, b, key) == Generation(p.db.index, b, key)
  {
    hide AbsorbAll, Absorb, SoftAttached;
    var step, key := TakeOver(b, name, generation), Key(name, generation);
    var blob := Generation(p.db.index, b, key).value;
    after := Next(p, step);
    GenerationSound(p.db.index, b, key);
    OneNoteAtMost(p.db, OperationOf(p, step));
    var note := ObjectUpdated(b, Bumped(p.db.index, b, blob));
    assert Effect(p.db, OperationOf(p, step)) == [note];
    UpdatedIs(p.db.index, b, Bumped(p.db.index, b, blob));
    assert after.db.index == Absorb(p.db.index, note);
  }

  lemma GenerationSound(index: Index, b: string, key: Key)
    requires Keyed(index) && AllAttached(index) && Generation(index, b, key).Some?
    ensures KeyOf(Generation(index, b, key).value) == key && Attached(Generation(index, b, key).value)
  {
  }

  lemma UpdatedIs(index: Index, b: string, blob: Blob)
    requires b in index.objects
    ensures Generation(Absorb(index, ObjectUpdated(b, blob)), b, KeyOf(blob)) == Some(blob)
  {
  }

  /** A restore that lands on a fenced number leaves it fenced exactly when the copy does not bring an open writer back. */
  lemma RestoreFences(p: Process, step: Step, b: string, key: Key, handle: nat)
    requires Sound(p) && Restores(step, b, key)
    requires RestoreError(p.db.index, p.db.soft, b, key.name, step.generation, step.pre, step.expired).None?
    ensures var kept := Unexpired(SoftList(p.db.soft, b, key.name), step.expired);
            var i := First(kept, step.generation);
            i < |kept| && (Fenced(Next(p, step), b, key, handle) <==> kept[i].meta.finalized || handle < kept[i].uploadGen)
  {
    hide AbsorbAll, Absorb, Keyed, AllAttached, SoftAttached, RestoreNotes, Unexpired, SoftList, First, Insertable, Next, Effect;
    var kept := Unexpired(SoftList(p.db.soft, b, key.name), step.expired);
    RestoreNeedsCopy(p.db, b, key.name, step.generation, step.pre, step.expired);
    RestoredIs(p, step);
    ListAttached(p.db, b, key.name);
    KeptAttached(SoftList(p.db.soft, b, key.name), key.name, step.expired);
    InsertedIs(p.db.index, b, Restored(kept[First(kept, step.generation)]));
  }

  /**
   A new object that is given a fenced number: an object inserted whole leaves it fenced, an appendable
   one that is accepted leaves no handle fenced that was ever issued.
   */
  lemma NumberFences(p: Process, step: Step, b: string, key: Key, handle: nat)
    requires Sound(p) && Numbers(p, step, b, key) && Fenced(p, b, key, handle)
    ensures Fenced(Next(p, step), b, key, handle) <==>
            step.Insert? || AppendableError(p.db.index, b, key.name, step.pre).Some? || handle == 0
  {
    hide Next, Absorb, Keyed, AllAttached, SoftAttached, AppendableError;
    var op := OperationOf(p, step);
    NumbersIs(p, step, b, key.name);
    if Effect(p.db, op) != [] {
      InsertedIs(p.db.index, b, op.blob);
    }
  }

  /** A step that makes a new object inserts it, or is refused. */
  lemma NumbersIs(p: Process, step: Step, b: string, name: string)
    requires Whole(p.db) && (step.Insert? || step.StartAppendable?) && step.bucketName == b && step.name == name
    ensures var op := OperationOf(p, step);
            && (Effect(p.db, op) == [] ==> Next(p, step).db.index == p.db.index)
            && (Effect(p.db, op) != [] ==> Next(p, step).db.index == Absorb(p.db.index, ObjectInserted(b, op.blob))
                                           && b in p.db.index.objects && b in p.db.index.live)
            && (step.StartAppendable? ==> (Effect(p.db, op) == [] <==> AppendableError(p.db.index, b, name, step.pre).Some?))
  {
    hide AbsorbAll, Absorb, Insertable, AppendableError, SoftAfter;
    OneNoteAtMost(p.db, OperationOf(p, step));
    Acceptable(p.db.index, b, name, step.pre);
  }

  lemma Acceptable(index: Index, b: string, name: string, pre: Precondition)
    requires index.buckets.Keys == index.objects.Keys == index.live.Keys
    ensures Insertable(index, b, name, pre).None? || AppendableError(index, b, name, pre).None? ==> b in index.objects && b in index.live
  {
    hide Current, LiveGeneration;
  }

  lemma InsertedIs(index: Index, b: string, blob: Blob)
    requires b in index.objects && b in index.live
    ensures Generation(Absorb(index, ObjectInserted(b, blob)), b, KeyOf(blob)) == Some(blob)
  {
  }

  lemma InsertedIsLive(index: Index, b: string, blob: Blob)
    requires b in index.objects && b in index.live
    ensures LiveGeneration(Absorb(index, ObjectInserted(b, blob)), b, blob.meta.name) == Some(blob.meta.generation)
  {
  }

  // ---- Runs ----

  function Run(p: Process, steps: seq<Step>): (after: Process)
    requires Whole(p.db)
    ensures Whole(after.db)
  {
    if steps == [] then p else Next(Run(p, steps[..|steps| - 1]), steps[|steps| - 1])
  }

  ghost predicate AllFair(steps: seq<Step>) {
    forall k :: 0 <= k < |steps| ==> Fair(steps[k])
  }

  lemma {:induction false} RunKeeps(p: Process, steps: seq<Step>)
    requires Sound(p) && AllFair(steps)
    ensures Sound(Run(p, steps)) && p.generation <= Run(p, steps).generation
  {
    hide Keyed, AllAttached, SoftAttached, Next, Fair;
    if steps != [] {
      RunKeeps(p, steps[..|steps| - 1]);
      StepKeeps(Run(p, steps[..|steps| - 1]), steps[|steps| - 1]);
    }
  }

  /** The step brings this generation back: it is restored, or an appendable object is given its number. */
  predicate Renews(p: Process, step: Step, b: string, key: Key) {
    Restores(step, b, key) || (step.StartAppendable? && Numbers(p, step, b, key))
  }

  /**
   Once a handle is out of date it stays so and no stream with it is let in, over any run that does
   not restore an object under the very number, and does not give it to a new appendable object.
   */
  lemma {:induction false} FencedForGood(p: Process, steps: seq<Step>, b: string, key: Key, handle: nat)
    requires Sound(p) && AllFair(steps) && Fenced(p, b, key, handle)
    requires forall k :: 0 <= k < |steps| ==> !Renews(Run(p, steps[..k]), steps[k], b, key)
    ensures Fenced(Run(p, steps), b, key, handle) && !Opens(Run(p, steps), b, key, handle)
  {
    hide Keyed, AllAttached, SoftAttached, Next, Fair, Generation;
    if steps != [] {
      var init, last := steps[..|steps| - 1], steps[|steps| - 1];
      forall k | 0 <= k < |init|
        ensures !Renews(Run(p, init[..k]), init[k], b, key)
      {
        assert init[..k] == steps[..k];
      }
      FencedForGood(p, init, b, key, handle);
      RunKeeps(p, init);
      StaysFenced(Run(p, init), last, b, key, handle);
    }
  }

  lemma StaysFenced(p: Process, step: Step, b: string, key: Key, handle: nat)
    requires Sound(p) && Fair(step) && Fenced(p, b, key, handle) && !Renews(p, step, b, key)
    ensures Fenced(Next(p, step), b, key, handle)
  {
    hide Keyed, AllAttached, SoftAttached, Next, Fair, Generation;
    if Numbers(p, step, b, key) {
      NumberFences(p, step, b, key, handle);
    } else {
      StepMoves(p, step, b, key);
    }
  }

  lemma BeginSound()
    ensures Sound(BEGIN)
  {
  }

  /**
   In every process an object, and every soft-deleted copy of one, has a writer exactly while it is not
   finalized, and then a handle of at least 1.
   */
  lemma WritersThroughout(steps: seq<Step>, b: string, key: Key)
    requires AllFair(steps)
    ensures var blob := Generation(Run(BEGIN, steps).db.index, b, key);
            blob.Some? ==> KeyOf(blob.value) == key && (blob.value.upload <==> !blob.value.meta.finalized)
                           && (blob.value.upload ==> blob.value.uploadGen >= 1)
    ensures CopiesAttached(SoftList(Run(BEGIN, steps).db.soft, b, key.name), key.name)
  {
    hide Run, SoftList, CopiesAttached;
    BeginSound();
    RunKeeps(BEGIN, steps);
    var p := Run(BEGIN, steps);
    if Generation(p.db.index, b, key).Some? {
      GenerationSound(p.db.index, b, key);
    }
    ListAttached(p.db, b, key.name);
  }

  // ---- A handle that comes back ----

  /** An object under the name `o`, being written, with this handle. */
  function Open(generation: nat, handle: nat): Blob {
    Blob(ObjectMeta("o", generation, 1, 0, 0, Md5([]), false, map[]), InMemory([]), true, handle)
  }

  /** Two appendable objects of one name, the second taken over; both are deleted, and the first is restored as the second. */
  function Reopening(): (steps: seq<Step>) {
    [Manage(InsertBucket(BUCKET)), StartAppendable("b", "o", InMemory([]), map[], Anything()), Delete("b", "o", 0, Anything()),
     StartAppendable("b", "o", InMemory([]), map[], Anything()), TakeOver("b", "o", 2), Delete("b", "o", 0, Anything()),
     Restore("b", "o", 1, Anything(), Never())]
  }

  lemma Starts(p: Process, copies: map<string, seq<Blob>>, g: nat)
    requires p == Process(BucketWith(map[], map[], copies), g)
    ensures Next(p, StartAppendable("b", "o", InMemory([]), map[], Anything())) ==
            Process(BucketWith(map[Key("o", g + 1) := Open(g + 1, 1)], map["o" := g + 1], copies), g + 1)
  {
    hide After;
    InsertsInto(map[], map[], copies, Open(g + 1, 1));
  }

  lemma Deletes(p: Process, copies: map<string, seq<Blob>>, blob: Blob, g: nat)
    requires blob.meta.name == "o"
    requires p == Process(BucketWith(map[KeyOf(blob) := blob], map["o" := blob.meta.generation], copies), g)
    ensures Next(p, Delete("b", "o", 0, Anything())) == Process(BucketWith(map[], map[], OneMore(copies, blob)), g)
  {
    hide After, OneMore;
    var objects: map<Key, Blob>, live: map<string, nat> := map[KeyOf(blob) := blob], map["o" := blob.meta.generation];
    DeletesFrom(objects, live, copies, blob);
    assert objects - {KeyOf(blob)} == map[] && live - {"o"} == map[];
  }

  lemma TakesOver(p: Process, copies: map<string, seq<Blob>>, g: nat)
    requires p == Process(BucketWith(map[Key("o", 2) := Open(2, 1)], map["o" := 2], copies), g)
    ensures Next(p, TakeOver("b", "o", 2)) == Process(BucketWith(map[Key("o", 2) := Open(2, 2)], map["o" := 2], copies), g)
  {
    hide AbsorbAll, Absorb, Find;
    var op := OperationOf(p, TakeOver("b", "o", 2));
    FindsSecond(p, op.pre);
    HandleUp(copies);
    assert op.update(Open(2, 1)).value == Open(2, 2);
    OneNoteAtMost(p.db, op);
    assert Effect(p.db, op) == [ObjectUpdated("b", Open(2, 2))];
  }

  lemma FindsSecond(p: Process, pre: Precondition)
    requires Generation(p.db.index, "b", Key("o", 2)) == Some(Open(2, 1)) && pre == Always()
    ensures Find(p.db.index, "b", "o", 2, pre) == Success(Open(2, 1))
  {
  }

  lemma HandleUp(copies: map<string, seq<Blob>>)
    ensures Absorb(BucketWith(map[Key("o", 2) := Open(2, 1)], map["o" := 2], copies).index, ObjectUpdated("b", Open(2, 2))) ==
            BucketWith(map[Key("o", 2) := Open(2, 2)], map["o" := 2], copies).index
  {
    assert map[Key("o", 2) := Open(2, 1)][Key("o", 2) := Open(2, 2)] == map[Key("o", 2) := Open(2, 2)];
  }

  lemma ComesBack(p: Process, copies: map<string, seq<Blob>>)
    requires p == Process(BucketWith(map[], map[], copies), 2)
    requires "o" in copies && copies["o"] == [Open(1, 1), Open(2, 2)]
    ensures Generation(Next(p, Restore("b", "o", 1, Anything(), Never())).db.index, "b", Key("o", 2)) == Some(Restored(Open(1, 1)))
  {
    hide After, First;
    FirstOfTwo(copies["o"], Open(1, 1), Open(2, 2));
    RestoresInto(map[], map[], copies, "o", 1);
    RestoredIsCurrent(map[], map[], copies, Restored(Open(1, 1)));
  }

  lemma FirstOfTwo(copies: seq<Blob>, first: Blob, second: Blob)
    requires copies == [first, second]
    ensures First(copies, first.meta.generation) == 0
  {
    FirstOfOne(copies[..1], first);
  }

  lemma RunMore(p: Process, steps: seq<Step>, k: nat)
    requires Whole(p.db) && k < |steps|
    ensures Run(p, steps[..k + 1]) == Next(Run(p, steps[..k]), steps[k])
  {
    hide Next;
    assert steps[..k + 1][..k] == steps[..k];
  }

  /** After the takeover the first handle is out of date; after the restore of the other object it opens the same number. */
  lemma RestoreReopens()
    ensures AllFair(Reopening())
    ensures Fenced(Run(BEGIN, Reopening()[..5]), "b", Key("o", 2), 1)
    ensures Opens(Run(BEGIN, Reopening()), "b", Key("o", 2), 1)
  {
    hide Next, OneMore, OperationOf, Fair;
    ReopeningFair();
    var steps := Reopening();
    RunMore(BEGIN, steps, 0);
    RunMore(BEGIN, steps, 1);
    RunMore(BEGIN, steps, 2);
    RunMore(BEGIN, steps, 3);
    RunMore(BEGIN, steps, 4);
    RunMore(BEGIN, steps, 5);
    RunMore(BEGIN, steps, 6);
    assert Run(BEGIN, steps[..0]) == BEGIN;
    assert steps[..7] == steps;
    Begins();
    var none: map<string, seq<Blob>> := map[];
    var one := OneMore(none, Open(1, 1));
    var two := OneMore(one, Open(2, 2));
    Starts(Run(BEGIN, steps[..1]), none, 0);
    Deletes(Run(BEGIN, steps[..2]), none, Open(1, 1), 1);
    Starts(Run(BEGIN, steps[..3]), one, 1);
    TakesOver(Run(BEGIN, steps[..4]), one, 2);
    Deletes(Run(BEGIN, steps[..5]), one, Open(2, 2), 2);
    TwoCopies();
    ComesBack(Run(BEGIN, steps[..6]), two);
  }

  lemma Begins()
    ensures Next(BEGIN, Manage(InsertBucket(BUCKET))) == Process(BucketWith(map[], map[], map[]), 0)
  {
    MakesBucket();
  }

  lemma TwoCopies()
    ensures var two := OneMore(OneMore(map[], Open(1, 1)), Open(2, 2)); "o" in two && two["o"] == [Open(1, 1), Open(2, 2)]
  {
  }

  lemma ReopeningFair()
    ensures AllFair(Reopening())
  {
  }

  // ---- A number that is handed out again ----

  /** An object deleted and restored under the next number, taken over and deleted; then that number is handed out. */
  function Renumbering(): (steps: seq<Step>) {
    [Manage(InsertBucket(BUCKET)), StartAppendable("b", "o", InMemory([]), map[], Anything()), Delete("b", "o", 0, Anything()),
     Restore("b", "o", 1, Anything(), Never()), TakeOver("b", "o", 2), Delete("b", "o", 0, Anything()),
     StartAppendable("b", "o", InMemory([]), map[], Anything())]
  }

  lemma Renumbers(p: Process, copies: map<string, seq<Blob>>) returns (left: map<string, seq<Blob>>)
    requires p == Process(BucketWith(map[], map[], copies), 1) && "o" in copies && copies["o"] == [Open(1, 1)]
    ensures Next(p, Restore("b", "o", 1, Anything(), Never())) ==
            Process(BucketWith(map[Key("o", 2) := Open(2, 1)], map["o" := 2], left), 1)
  {
    hide After, First, Absorb, OfGeneration;
    var step := Restore("b", "o", 1, Anything(), Never());
    var after := Next(p, step);
    FirstOfOne(copies["o"], Open(1, 1));
    RestoresInto(map[], map[], copies, "o", 1);
    InsertedInto(map[], map[], copies, Restored(Open(1, 1)));
    SoftStays(p.db, OperationOf(p, step));
    left := after.db.soft["b"];
    assert after.db.soft == map["b" := left];
  }

  lemma SoftStays(s: State, op: Operation)
    requires Whole(s) && op.RestoreObject?
    ensures After(s, op).soft.Keys == s.soft.Keys
  {
    hide AbsorbAll, Effect;
    RestoreIs(s, op);
  }

  lemma RestoredAsTwo() returns (left: map<string, seq<Blob>>)
    ensures Run(BEGIN, Renumbering()[..4]) == Process(BucketWith(map[Key("o", 2) := Open(2, 1)], map["o" := 2], left), 1)
  {
    hide Next, OneMore, OperationOf;
    var steps := Renumbering();
    RunMore(BEGIN, steps, 0);
    RunMore(BEGIN, steps, 1);
    RunMore(BEGIN, steps, 2);
    RunMore(BEGIN, steps, 3);
    assert Run(BEGIN, steps[..0]) == BEGIN;
    Begins();
    var none: map<string, seq<Blob>> := map[];
    Starts(Run(BEGIN, steps[..1]), none, 0);
    Deletes(Run(BEGIN, steps[..2]), none, Open(1, 1), 1);
    OneCopy();
    left := Renumbers(Run(BEGIN, steps[..3]), OneMore(none, Open(1, 1)));
  }

  /** After the takeover the first handle is out of date; the new object of the same number is opened by it. */
  lemma NumberReopens()
    ensures AllFair(Renumbering()) && forall k :: 5 <= k < 7 ==> !Restores(Renumbering()[k], "b", Key("o", 2))
    ensures Fenced(Run(BEGIN, Renumbering()[..5]), "b", Key("o", 2), 1)
    ensures Opens(Run(BEGIN, Renumbering()), "b", Key("o", 2), 1)
  {
    hide Next, OneMore, OperationOf, Fair, Run;
    RenumberingFair();
    var steps := Renumbering();
    RunMore(BEGIN, steps, 4);
    RunMore(BEGIN, steps, 5);
    RunMore(BEGIN, steps, 6);
    assert steps[..7] == steps;
    var left := RestoredAsTwo();
    TakesOver(Run(BEGIN, steps[..4]), left, 1);
    Deletes(Run(BEGIN, steps[..5]), left, Open(2, 2), 1);
    Starts(Run(BEGIN, steps[..6]), OneMore(left, Open(2, 2)), 1);
  }

  lemma OneCopy()
    ensures var one := OneMore(map[], Open(1, 1)); "o" in one && one["o"] == [Open(1, 1)]
  {
  }

  lemma RenumberingFair()
    ensures AllFair(Renumbering())
  {
  }

  // ---- A takeover that fences nobody ----

  /** An object that is still being written is overwritten by a whole one, and then taken over. */
  function Overwriting(): (steps: seq<Step>) {
    [Manage(InsertBucket(BUCKET)), StartAppendable("b", "o", InMemory([]), map[], Anything()),
     Insert("b", "o", InMemory([]), 0, 0, Md5([]), map[], Anything()), TakeOver("b", "o", 1)]
  }

  lemma Overwrites(p: Process)
    requires p == Process(BucketWith(map[Key("o", 1) := Open(1, 1)], map["o" := 1], map[]), 1)
    ensures var after := Next(p, Insert("b", "o", InMemory([]), 0, 0, Md5([]), map[], Anything()));
            && LiveGeneration(after.db.index, "b", "o") == Some(2)
            && Generation(after.db.index, "b", Key("o", 1)) == Some(Open(1, 1))
  {
    hide AbsorbAll;
    OneNoteAtMost(p.db, OperationOf(p, Insert("b", "o", InMemory([]), 0, 0, Md5([]), map[], Anything())));
  }

  /** The handle of the overwritten object still works after the takeover. */
  lemma TakeOverFencesNobody()
    ensures AllFair(Overwriting())
    ensures Opens(Run(BEGIN, Overwriting()), "b", Key("o", 1), 1)
  {
    hide Next, OperationOf, Fair, Sound;
    OverwritingFair();
    var steps := Overwriting();
    RunMore(BEGIN, steps, 0);
    RunMore(BEGIN, steps, 1);
    RunMore(BEGIN, steps, 2);
    RunMore(BEGIN, steps, 3);
    assert Run(BEGIN, steps[..0]) == BEGIN;
    assert steps[..4] == steps;
    Begins();
    Starts(Run(BEGIN, steps[..1]), map[], 0);
    Overwrites(Run(BEGIN, steps[..2]));
    BeginSound();
    RunKeeps(BEGIN, steps[..3]);
    var after := TakeOverFences(Run(BEGIN, steps[..3]), "b", "o", 1);
  }

  lemma OverwritingFair()
    ensures AllFair(Overwriting())
  {
  }
}
