/** What is stored stays stored until a request for that name, and is there again after a restart. */
module Survival {

  import opened Bytes
  import opened Checksums
  import opened Database
  import opened FileMedia
  import opened FileStore
  import opened Layouts
  import opened Mirroring
  import opened Placing
  import opened Posix
  import opened Requests
  import opened Resources
  import opened Restart
  import opened Shelves
  import opened SoundSteps
  import opened StoreSteps
  import opened WorldRuns
  import opened Worlds

  /** The step is a request for this name of this bucket, or for everything. */
  predicate Touches(w: World, step: Step, b: string, name: string) {
    match step
    case Clear => true
    case InsertBytes(c, n, _, _) => (c, n) == (b, name)
    case FinishUpload(id, _) => OfUpload(w, id, b, name)
    case StartAppendable(c, _, n, _) => (c, n) == (b, name)
    case Checkpoint(id) => OfUpload(w, id, b, name)
    case FinishAppendable(id) => OfUpload(w, id, b, name)
    case TakeOver(c, n, _) => (c, n) == (b, name)
    case Patch(c, n, _, _) => (c, n) == (b, name)
    case Delete(c, n, _) => (c, n) == (b, name)
    case _ => false
  }

  predicate OfUpload(w: World, id: nat, b: string, name: string) {
    id < |w.uploads| && w.uploads[id].bucket == b && w.uploads[id].key.name == name
  }

  // ---- Other names ----

  lemma AbsorbElsewhere(index: Index, note: Note, b: string, name: string)
    requires match note
             case ObjectInserted(c, blob) => (c, blob.meta.name) != (b, name)
             case ObjectUpdated(c, blob) => (c, blob.meta.name) != (b, name)
             case ObjectDeleted(c, key) => (c, key.name) != (b, name)
             case BucketUpdated(_) => true
             case BucketInserted(bucket) => bucket.name != b
             case BucketDeleted(c) => c != b
             case _ => false
    ensures Current(Absorb(index, note), b, name) == Current(index, b, name)
  {
  }

  /** The live object of a name, and what the store was last told of it, are as they were. */
  predicate Same(w: World, after: World, b: string, name: string) {
    Current(after.index, b, name) == Current(w.index, b, name) && Lag(after.behind, b, name) == Lag(w.behind, b, name)
  }

  lemma InsertElsewhere(w: World, slots: Slots, c: string, n: string, blob: Blob, b: string, name: string)
    requires Named(slots) && n in slots && blob.meta.name == n && (c, n) != (b, name)
    ensures var r := Insert(w, slots, c, n, blob); r.Ok? ==> Same(w, r.value, b, name)
    ensures var r := Update(w, slots, c, n, blob); r.Ok? ==> Same(w, r.value, b, name)
  {
    hide TellInsert, TellUpdate, Absorb, Current;
    AbsorbElsewhere(w.index, ObjectInserted(c, blob), b, name);
    AbsorbElsewhere(w.index, ObjectUpdated(c, blob), b, name);
  }

  lemma AttachElsewhere(w: World, slots: Slots, id: nat, attributes: map<string, string>, b: string, name: string)
    requires Named(slots) && id < |w.uploads| && w.uploads[id].key.name in slots && !OfUpload(w, id, b, name)
    ensures var r := AttachUpload(w, slots, id, attributes); r.Ok? ==> Same(w, r.value, b, name)
  {
    hide Insert, TellUpdate, Current;
    var c, n := w.uploads[id].bucket, w.uploads[id].key.name;
    InsertElsewhere(Moved(w, id, Attached), slots, c, n, EmptyBlob(Key(n, w.generation + 1), id, attributes), b, name);
  }

  lemma BucketElsewhere(w: World, slots: Slots, step: Step, b: string, name: string)
    requires Named(slots) && Legal(w, slots, step) && Current(w.index, b, name).Some? && b in w.index.buckets
    requires step.InsertBucket? || step.UpdateBucket? || step.DeleteBucket?
    ensures var r := Next(w, slots, step); r.Ok? ==> Same(w, r.value, b, name)
  {
    hide TellBucket, TellBucketUpdate, TellBucketDelete, Absorb;
    match step
    case InsertBucket(bucket) =>
      if bucket.name != b { AbsorbElsewhere(w.index, BucketInserted(bucket), b, name); }
    case UpdateBucket(bucket, _) => AbsorbElsewhere(w.index, BucketUpdated(bucket), b, name);
    case DeleteBucket(c) =>
      if c != b { AbsorbElsewhere(w.index, BucketDeleted(c), b, name); }
  }

  lemma UploadElsewhere(w: World, slots: Slots, step: Step, b: string, name: string)
    requires Named(slots) && Legal(w, slots, step) && !Touches(w, step, b, name)
    requires step.NewUpload? || step.Append? || step.InsertBytes? || step.FinishUpload? || step.StartAppendable?
    ensures var r := Next(w, slots, step); r.Ok? ==> Same(w, r.value, b, name)
  {
    hide StageUpload, Grow, Insert, AttachUpload, FreshUpload, Current, BytesBlob, WholeBlob;
    match step
    case InsertBytes(c, n, bytes, attributes) =>
      NamedSo(w, n, bytes, 0, attributes);
      InsertElsewhere(w.(generation := w.generation + 1), slots, c, n, BytesBlob(Key(n, w.generation + 1), bytes, attributes), b, name);
    case FinishUpload(id, attributes) =>
      var n := w.uploads[id].key.name;
      NamedSo(w, n, [], id, attributes);
      InsertElsewhere(Moved(w, id, Done), slots, w.uploads[id].bucket, n,
                      WholeBlob(w.store.medias[id], Key(n, w.generation + 1), id, attributes), b, name);
    case StartAppendable(c, uploadId, n, attributes) =>
      if StageUpload(w.store, c, uploadId).Ok? {
        AttachElsewhere(StartUpload(w, c, uploadId, n).value, slots, |w.uploads|, attributes, b, name);
      }
    case _ =>
  }

  lemma ObjectElsewhere(w: World, slots: Slots, step: Step, b: string, name: string)
    requires Layout(slots) && Named(slots) && Legal(w, slots, step) && Sound(w, slots) && !Touches(w, step, b, name)
    requires step.Checkpoint? || step.FinishAppendable? || step.TakeOver? || step.Patch? || step.Delete?
    ensures var r := Next(w, slots, step); r.Ok? ==> Same(w, r.value, b, name)
  {
    hide Layout, Sound, Update, TellDelete, Absorb, Current, Generation, LiveOrGone, LiveOrNone, Keyed;
    SoundKeys(w, slots);
    match step
    case Checkpoint(id) =>
      if Written(w, id).Some? {
        InsertElsewhere(w, slots, w.uploads[id].bucket, w.uploads[id].key.name,
                        Checkpointed(Written(w, id).value, w.store.medias[id], id), b, name);
      }
    case FinishAppendable(id) =>
      if Written(w, id).Some? {
        InsertElsewhere(w.(uploads := Ended(w.uploads, id)), slots, w.uploads[id].bucket, w.uploads[id].key.name,
                        Finalized(Written(w, id).value, w.store.medias[id], id), b, name);
      }
    case TakeOver(c, n, generation) =>
      var blob := Generation(w.index, c, Key(n, generation));
      if blob.Some? { InsertElsewhere(w, slots, c, n, TakenOver(blob.value), b, name); }
    case Patch(c, n, attributes, _) =>
      var blob := Current(w.index, c, n);
      if blob.Some? {
        InsertElsewhere(w, slots, c, n, Patched(blob.value, attributes), b, name);
        AbsorbElsewhere(w.index, ObjectUpdated(c, Merged(blob.value, attributes)), b, name);
      }
    case Delete(c, n, generation) =>
      var blob := Meant(w.index, c, n, generation);
      if blob.Some? { AbsorbElsewhere(w.index, ObjectDeleted(c, Key(n, blob.value.meta.generation)), b, name); }
  }

  /** No step but a request for a name changes the live object under it, or what the store was last told of it. */
  lemma StepElsewhere(w: World, slots: Slots, step: Step, b: string, name: string)
    requires Layout(slots) && Named(slots) && Sound(w, slots) && Legal(w, slots, step) && !Touches(w, step, b, name)
    requires Current(w.index, b, name).Some?
    ensures var r := Next(w, slots, step); r.Ok? ==> Same(w, r.value, b, name)
  {
    hide Layout, Sound, Named, Next, Legal, Same, Current;
    CurrentHasBucket(w, slots, b, name);
    match step
    case InsertBucket(_) => BucketElsewhere(w, slots, step, b, name);
    case UpdateBucket(_, _) => BucketElsewhere(w, slots, step, b, name);
    case DeleteBucket(_) => BucketElsewhere(w, slots, step, b, name);
    case Clear =>
    case Checkpoint(_) => ObjectElsewhere(w, slots, step, b, name);
    case FinishAppendable(_) => ObjectElsewhere(w, slots, step, b, name);
    case TakeOver(_, _, _) => ObjectElsewhere(w, slots, step, b, name);
    case Patch(_, _, _, _) => ObjectElsewhere(w, slots, step, b, name);
    case Delete(_, _, _) => ObjectElsewhere(w, slots, step, b, name);
    case _ => UploadElsewhere(w, slots, step, b, name);
  }

  // ---- Runs ----

  /** No step of the run is a request for this name, in the world it is taken in. */
  ghost predicate LeftAlone(w: World, slots: Slots, steps: seq<Step>, b: string, name: string)
    requires Named(slots) && LegalRun(w, slots, steps)
    decreases |steps|
  {
    steps == [] ||
    (!Touches(w, steps[0], b, name) &&
     var next := Next(w, slots, steps[0]); next.Ok? ==> LeftAlone(next.value, slots, steps[1..], b, name))
  }

  lemma {:induction false} RunElsewhere(w: World, slots: Slots, steps: seq<Step>, b: string, name: string)
    requires Layout(slots) && Sound(w, slots) && Named(slots) && Placed(w, slots) && LegalRun(w, slots, steps)
    requires LeftAlone(w, slots, steps, b, name) && Current(w.index, b, name).Some?
    ensures var r := Run(w, slots, steps); r.Ok? && Same(w, r.value, b, name)
    decreases |steps|
  {
    hide Layout, Sound, Named, Next, Legal, Touches, Placed, Current, Evolves;
    if steps != [] {
      StepSound(w, slots, steps[0]);
      StepPlaced(w, slots, steps[0]);
      StepElsewhere(w, slots, steps[0], b, name);
      RunElsewhere(Next(w, slots, steps[0]).value, slots, steps[1..], b, name);
    }
  }

  /** What is stored stays stored over any run that leaves its name alone. */
  lemma StoredStays(w: World, slots: Slots, steps: seq<Step>, b: string, name: string, bytes: Bytes, attributes: map<string, string>)
    requires Layout(slots) && Sound(w, slots) && Named(slots) && Placed(w, slots) && LegalRun(w, slots, steps) && name in slots
    requires LeftAlone(w, slots, steps, b, name) && Stored(w, slots, b, name, bytes, attributes) && (b, name) !in w.behind
    ensures var r := Run(w, slots, steps);
            r.Ok? && Stored(r.value, slots, b, name, bytes, attributes) && (b, name) !in r.value.behind
  {
    hide Layout, Sound, Named, Placed, Run, LegalRun, LeftAlone, Evolves, BytesBehind, Exact, FileAt, Current, SettledNow;
    RunSound(w, slots, steps);
    RunElsewhere(w, slots, steps, b, name);
    var after := Run(w, slots, steps).value;
    var blob := Current(w.index, b, name).value;
    LiveSettled(w, slots, b, name);
    SettledStays(w.store, after.store, blob.media);
    OnDiskToo(after, slots, b, name, blob, bytes, attributes);
  }

  lemma LiveSettled(w: World, slots: Slots, b: string, name: string)
    requires Layout(slots) && Sound(w, slots) && name in slots && Current(w.index, b, name).Some? && !Current(w.index, b, name).value.upload
    ensures SettledNow(w.store, Current(w.index, b, name).value.media)
  {
    hide Layout, Sound, Current, Measured, SettledNow, MirrorAt, SameInode, EntryAt;
    CurrentHasBucket(w, slots, b, name);
    LiveBlob(w, slots, b, name);
  }

  lemma SettledStays(before: Store, after: Store, media: MediaRef)
    requires Evolves(before, after) && SettledNow(before, media)
    ensures BytesBehind(after, media) == BytesBehind(before, media)
  {
    hide MediaBytes, MediaInode;
  }

  // ---- A restart ----

  /** After a restart the name is live, with these attributes and bytes, and checksums that are theirs. */
  ghost predicate ComesBack(index: Index, store: Store, b: string, name: string, bytes: Bytes, attributes: map<string, string>) {
    match Current(index, b, name)
    case None => false
    case Some(blob) =>
      && blob.meta.name == name && blob.meta.attributes == attributes && Exact(blob.meta, bytes)
      && blob.media.OnDisk? && blob.media.id < |store.medias|
      && MediaBytes(store, blob.media.id) == bytes && Rolling(store.medias[blob.media.id], bytes)
  }

  lemma RecoveredComesBack(w: World, slots: Slots, b: string, name: string, bytes: Bytes, attributes: map<string, string>,
                           index: Index, store: Store)
    requires name in slots && b in w.index.buckets && Stored(w, slots, b, name, bytes, attributes) && (b, name) !in w.behind
    requires Recovers(w, slots, index, store)
    ensures ComesBack(index, store, b, name, bytes, attributes)
  {
    hide MediaBytes, Rolling, FileAt, Crc32c;
    assert BucketRecovers(w, slots, b, store, index.objects[b], index.live[b]);
    assert Back(w, b, name, store, index.objects[b], index.live[b]);
  }

  lemma {:induction false} RunThen(w: World, slots: Slots, steps: seq<Step>, middle: World, later: seq<Step>)
    requires Named(slots) && LegalRun(w, slots, steps) && Run(w, slots, steps) == Ok(middle) && LegalRun(middle, slots, later)
    ensures LegalRun(w, slots, steps + later) && Run(w, slots, steps + later) == Run(middle, slots, later)
    decreases |steps|
  {
    hide Legal, Next, Named;
    if steps == [] {
      assert steps + later == later;
    } else {
      assert (steps + later)[1..] == steps[1..] + later;
      RunThen(Next(w, slots, steps[0]).value, slots, steps[1..], middle, later);
    }
  }

  /**
   Any run, then an insert of bytes into a bucket that is there, then any run that leaves the name alone,
   then a restart: the name is live with exactly those bytes, their checksums and the attributes.
   */
  method StoreAndRestart(ghost names: set<string>, ghost before: seq<Step>, ghost w: World, ghost b: string, ghost name: string,
                         ghost bytes: Bytes, ghost attributes: map<string, string>, ghost inserted: World,
                         ghost later: seq<Step>, ghost last: World, left: Store)
    returns (r: Outcome<(Index, Store)>)
    requires Compatible(names) && name in names
    requires LegalRun(START, SlotsOf(names), before) && Run(START, SlotsOf(names), before) == Ok(w)
    requires b in w.index.objects && Goes(w, SlotsOf(names), InsertBytes(b, name, bytes, attributes), inserted)
    requires LegalRun(inserted, SlotsOf(names), later) && LeftAlone(inserted, SlotsOf(names), later, b, name)
    requires Run(inserted, SlotsOf(names), later) == Ok(last) && left == Crashed(last.store)
    ensures r.Ok? && ComesBack(r.value.0, r.value.1, b, name, bytes, attributes)
  {
    ghost var steps := WholeRun(names, before, w, b, name, bytes, attributes, inserted, later, last);
    r := RunAndRestart(names, steps, last, left);
    RecoveredComesBack(last, SlotsOf(names), b, name, bytes, attributes, r.value.0, r.value.1);
  }

  lemma WholeRun(names: set<string>, before: seq<Step>, w: World, b: string, name: string, bytes: Bytes,
                 attributes: map<string, string>, inserted: World, later: seq<Step>, last: World) returns (steps: seq<Step>)
    requires Compatible(names) && name in names
    requires LegalRun(START, SlotsOf(names), before) && Run(START, SlotsOf(names), before) == Ok(w)
    requires b in w.index.objects && Goes(w, SlotsOf(names), InsertBytes(b, name, bytes, attributes), inserted)
    requires LegalRun(inserted, SlotsOf(names), later) && LeftAlone(inserted, SlotsOf(names), later, b, name)
    requires Run(inserted, SlotsOf(names), later) == Ok(last)
    ensures LegalRun(START, SlotsOf(names), steps) && Run(START, SlotsOf(names), steps) == Ok(last)
    ensures b in last.index.buckets && Stored(last, SlotsOf(names), b, name, bytes, attributes) && (b, name) !in last.behind
  {
    hide Layout, Sound, Named, Placed, Run, LegalRun, LeftAlone, Evolves, Compatible, SlotOf, Stored, Goes;
    var slots := SlotsOf(names);
    LayoutOf(names);
    SlotsNamed(slots);
    StartSound(slots);
    RunSound(START, slots, before);
    InsertKeeps(w, slots, b, name, bytes, attributes, inserted);
    StoredStays(inserted, slots, later, b, name, bytes, attributes);
    RunSound(inserted, slots, later);
    CurrentHasBucketOf(last, slots, b, name, bytes, attributes);
    InsertOn(START, slots, before, w, b, name, bytes, attributes, inserted);
    steps := before + [InsertBytes(b, name, bytes, attributes)];
    RunThen(START, slots, steps, inserted, later);
    steps := steps + later;
  }

  lemma InsertKeeps(w: World, slots: Slots, b: string, name: string, bytes: Bytes, attributes: map<string, string>, after: World)
    requires Layout(slots) && Named(slots) && Sound(w, slots) && Placed(w, slots)
    requires b in w.index.objects && Goes(w, slots, InsertBytes(b, name, bytes, attributes), after)
    ensures Sound(after, slots) && Placed(after, slots) && name in slots
    ensures Stored(after, slots, b, name, bytes, attributes) && (b, name) !in after.behind
  {
    hide Layout, Sound, Named, Placed, Next, Evolves, Stored;
    var inserted := InsertStores(w, slots, b, name, bytes, attributes);
    StepSound(w, slots, InsertBytes(b, name, bytes, attributes));
    StepPlaced(w, slots, InsertBytes(b, name, bytes, attributes));
  }

  lemma InsertOn(w: World, slots: Slots, steps: seq<Step>, middle: World, b: string, name: string, bytes: Bytes,
                 attributes: map<string, string>, after: World)
    requires Named(slots) && LegalRun(w, slots, steps) && Run(w, slots, steps) == Ok(middle)
    requires b in middle.index.objects && Goes(middle, slots, InsertBytes(b, name, bytes, attributes), after)
    ensures var more := steps + [InsertBytes(b, name, bytes, attributes)];
            LegalRun(w, slots, more) && Run(w, slots, more) == Ok(after)
  {
    hide Legal, Next, Named;
    StepOn(w, slots, steps, middle, InsertBytes(b, name, bytes, attributes), after);
  }

  lemma CurrentHasBucketOf(w: World, slots: Slots, b: string, name: string, bytes: Bytes, attributes: map<string, string>)
    requires Layout(slots) && Sound(w, slots) && name in slots && Stored(w, slots, b, name, bytes, attributes)
    ensures b in w.index.buckets
  {
    hide Layout, Sound, Current, Exact, BytesBehind, FileAt;
    CurrentHasBucket(w, slots, b, name);
  }
}
