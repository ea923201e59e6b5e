/** Runs from the start on which the limits of the mirror are met, over any names that can share a bucket. */
module Witnesses {

  import opened Appendables
  import opened Bytes
  import opened Checksums
  import opened Database
  import opened FileMedia
  import opened FileStore
  import opened Limits
  import opened Mirroring
  import opened MirrorSteps
  import opened Placing
  import opened Posix
  import opened Resources
  import opened Restart
  import opened Shelves
  import opened Snapshots
  import opened SoundSteps
  import opened StoreSteps
  import opened WorldRuns
  import opened Worlds
  import opened Wrappers

  const BUCKET := BucketMeta("b", 1, false, map[])

  lemma RunStep(w: World, slots: Slots, step: Step, next: World, rest: seq<Step>)
    requires Named(slots) && Worlds.Legal(w, slots, step) && Worlds.Next(w, slots, step) == Ok(next) && LegalRun(next, slots, rest)
    ensures LegalRun(w, slots, [step] + rest) && Run(w, slots, [step] + rest) == Run(next, slots, rest)
  {
    hide Worlds.Legal, Worlds.Next, Named;
    assert ([step] + rest)[1..] == rest;
  }

  /** No media yet, and nothing staged. */
  ghost predicate NoUploads(w: World) {
    match w
    case World(_, store, uploads, _, _, _) =>
      && store.medias == [] && uploads == []
      && forall place: Place :: IsStaging(place.path) ==> FileAt(store.fs, place) == None
  }

  lemma QuietNoUploads(w: World, after: World)
    requires NoUploads(w) && Quiet(w.store, after.store) && after.uploads == w.uploads
    ensures NoUploads(after)
  {
  }

  lemma IdUnused(w: World)
    requires NoUploads(w)
    ensures FreshUpload(w, "b", "u")
  {
    assert IsStaging(Place("b", StagingPath("u")).path);
  }

  /** The world with one bucket. */
  lemma Made(slots: Slots) returns (w: World)
    requires Layout(slots) && Named(slots)
    ensures Worlds.Next(START, slots, InsertBucket(BUCKET)) == Ok(w) && Sound(w, slots) && NoUploads(w)
    ensures w.index == Absorb(EMPTY, BucketInserted(BUCKET)) && w.generation == 0 && w.behind == map[]
  {
    hide Layout, Sound, Named, TellBucket, Evolves, Quiet;
    StartSound(slots);
    StepSound(START, slots, InsertBucket(BUCKET));
    w := Worlds.Next(START, slots, InsertBucket(BUCKET)).value;
    BucketQuiet(START.store, BUCKET);
    QuietNoUploads(START, w);
  }

  lemma EmptyBucket(name: string)
    ensures var index := Absorb(EMPTY, BucketInserted(BUCKET));
            "b" in index.buckets && "b" in index.objects && "b" in index.live && Current(index, "b", name) == None
  {
  }

  // ---- A store that is behind ----

  lemma InsertedBytes(w: World, slots: Slots, name: string, bytes: Bytes) returns (after: World)
    requires Layout(slots) && Named(slots) && Sound(w, slots) && NoUploads(w) && "b" in w.index.objects && "b" in w.index.live
    requires name in slots
    ensures Worlds.Legal(w, slots, InsertBytes("b", name, bytes, map[]))
    ensures Worlds.Next(w, slots, InsertBytes("b", name, bytes, map[])) == Ok(after) && Sound(after, slots) && NoUploads(after)
    ensures Current(after.index, "b", name).Some? && Current(after.index, "b", name).value.meta.finalized
  {
    hide Layout, Sound, Named, TellInsert, Evolves, Quiet, Crc32c, NoUploads, Current;
    var step := InsertBytes("b", name, bytes, map[]);
    StepSound(w, slots, step);
    after := Worlds.Next(w, slots, step).value;
    SlotNotStaging(slots, name);
    BytesQuiet(w.store, "b", slots[name], BytesBlob(Key(name, w.generation + 1), bytes, map[]));
    QuietNoUploads(w, after);
    CurrentAfterInsert(w.index, "b", BytesBlob(Key(name, w.generation + 1), bytes, map[]), "b", name);
  }

  lemma Behind(w: World, slots: Slots, name: string) returns (after: World)
    requires Layout(slots) && Named(slots) && Sound(w, slots) && NoUploads(w) && name in slots && "b" in w.index.buckets
    requires Current(w.index, "b", name).Some? && Current(w.index, "b", name).value.meta.finalized
    ensures Worlds.Legal(w, slots, StartAppendable("b", "u", name, map[]))
    ensures Worlds.Next(w, slots, StartAppendable("b", "u", name, map[])) == Ok(after) && ("b", name) in after.behind
  {
    hide Layout, Sound, Named, StartUpload, Insert, Evolves, Current, FreshUpload, NoUploads, InsertOver, TellUpdate;
    IdUnused(w);
    SoundStage(w, slots, "b", "u", name);
    var s := StartUpload(w, "b", "u", name).value;
    StepSound(w, slots, StartAppendable("b", "u", name, map[]));
    after := Worlds.Next(w, slots, StartAppendable("b", "u", name, map[])).value;
    SoundOver(s, slots, |w.uploads|, map[], Current(w.index, "b", name).value);
  }

  /** An appendable insert over an existing object leaves the store behind on it. */
  lemma StoreFallsBehind(slots: Slots, name: string, bytes: Bytes) returns (steps: seq<Step>, w: World)
    requires Layout(slots) && Named(slots) && name in slots
    ensures LegalRun(START, slots, steps) && Run(START, slots, steps) == Ok(w) && ("b", name) in w.behind
  {
    hide Layout, Sound, Named, Worlds.Legal, Worlds.Next, NoUploads, Current, Absorb;
    EmptyBucket(name);
    var one := Made(slots);
    MadeLegal(slots, name);
    var two := InsertedBytes(one, slots, name, bytes);
    CurrentHasBucket(two, slots, "b", name);
    w := Behind(two, slots, name);
    var third := StartAppendable("b", "u", name, map[]);
    EmptyRun(w, slots);
    RunStep(two, slots, third, w, []);
    RunStep(one, slots, InsertBytes("b", name, bytes, map[]), two, [third] + []);
    RunStep(START, slots, InsertBucket(BUCKET), one, [InsertBytes("b", name, bytes, map[])] + ([third] + []));
    steps := [InsertBucket(BUCKET)] + ([InsertBytes("b", name, bytes, map[])] + ([third] + []));
  }

  lemma EmptyRun(w: World, slots: Slots)
    requires Named(slots)
    ensures LegalRun(w, slots, []) && Run(w, slots, []) == Ok(w)
  {
  }

  lemma MadeLegal(slots: Slots, name: string)
    requires Named(slots) && name in slots
    ensures Worlds.Legal(START, slots, InsertBucket(BUCKET))
    ensures forall w, bytes :: Worlds.Legal(w, slots, InsertBytes("b", name, bytes, map[]))
  {
  }

  // ---- Bytes that no metadata knows of ----

  lemma LinkKeepsMedia(store: Store, b: string, slot: Slot, blob: Blob)
    requires slot.media != [] && slot.sidecar != [] && blob.upload
    ensures TellInsert(store, b, slot, blob).Ok? ==> TellInsert(store, b, slot, blob).value.medias == store.medias
  {
    hide MakeDirs, GuardCollision, WriteAtomic, LinkTo, DropName;
  }

  lemma StagedIsEmpty(store: Store, b: string, uploadId: string)
    requires store.medias == []
    ensures var r := StageUpload(store, b, uploadId);
            r.Ok? ==> |r.value.medias| == 1 && r.value.medias[0].size == 0 && r.value.medias[0].staging.Some?
  {
    hide MakeDirs;
  }

  lemma StagedPlace(store: Store, b: string, uploadId: string)
    requires store.medias == []
    ensures var r := StageUpload(store, b, uploadId);
            r.Ok? ==> |r.value.medias| == 1 && r.value.medias[0].staging.Some?
                      && r.value.medias[0].staging.value.place == Place(b, StagingPath(uploadId))
  {
    hide MakeDirs;
  }

  /** What the step makes of the world: the insert of the empty object. */
  lemma StartIs(w: World, slots: Slots, name: string)
    requires Named(slots) && name in slots && w.uploads == [] && "b" in w.index.buckets && Current(w.index, "b", name) == None
    requires Worlds.Legal(w, slots, StartAppendable("b", "u", name, map[]))
    requires Worlds.Next(w, slots, StartAppendable("b", "u", name, map[])).Ok?
    ensures var after := Worlds.Next(w, slots, StartAppendable("b", "u", name, map[])).value;
            var blob := EmptyBlob(Key(name, w.generation + 1), 0, map[]);
            && after.index == Absorb(w.index, ObjectInserted("b", blob)) && after.generation == w.generation + 1
            && after.uploads == [Upload("b", Key(name, w.generation + 1), Attached)]
            && StageUpload(w.store, "b", "u").Ok?
            && TellInsert(StageUpload(w.store, "b", "u").value, "b", slots[name], blob) == Ok(after.store)
  {
    hide TellInsert, StageUpload, Absorb, Current, FreshUpload, Named;
  }

  /** An appendable object has begun: nothing is written yet. */
  lemma Started(w: World, slots: Slots, name: string) returns (after: World)
    requires Layout(slots) && Named(slots) && Sound(w, slots) && NoUploads(w) && name in slots
    requires "b" in w.index.buckets && Current(w.index, "b", name) == None
    ensures Worlds.Legal(w, slots, StartAppendable("b", "u", name, map[]))
    ensures Worlds.Next(w, slots, StartAppendable("b", "u", name, map[])) == Ok(after) && Sound(after, slots)
    ensures |after.store.medias| == 1 && after.store.medias[0].staging.Some? && MediaBytes(after.store, 0) == []
    ensures after.uploads == [Upload("b", Key(name, w.generation + 1), Attached)]
    ensures after.index == Absorb(w.index, ObjectInserted("b", EmptyBlob(Key(name, w.generation + 1), 0, map[])))
  {
    hide Layout, Sound, Named, StageUpload, TellInsert, Evolves, Current, FreshUpload, Handles, NoUploads, Absorb, Worlds.Next, MediaBytes;
    IdUnused(w);
    NoMedia(w);
    SlotNotStaging(slots, name);
    StagedIsEmpty(w.store, "b", "u");
    StepSound(w, slots, StartAppendable("b", "u", name, map[]));
    after := Worlds.Next(w, slots, StartAppendable("b", "u", name, map[])).value;
    StartIs(w, slots, name);
    var blob := EmptyBlob(Key(name, w.generation + 1), 0, map[]);
    LinkKeepsMedia(StageUpload(w.store, "b", "u").value, "b", slots[name], blob);
    NothingWritten(after, slots);
  }

  lemma NothingWritten(w: World, slots: Slots)
    requires Layout(slots) && Sound(w, slots) && |w.store.medias| == 1 && w.store.medias[0].size == 0
    ensures MediaBytes(w.store, 0) == []
  {
    hide Layout, Sound, Handles, MediaBytes;
    Parts(w, slots);
    HandleMeasures(w.store, 0);
  }

  lemma NoMedia(w: World)
    requires NoUploads(w)
    ensures w.store.medias == [] && w.uploads == []
  {
  }

  /** Bytes that an append left without a checkpoint are not recorded: the metadata says there are none. */
  lemma BytesNotRecorded(slots: Slots, name: string, data: Bytes) returns (steps: seq<Step>, w: World)
    requires Layout(slots) && Named(slots) && name in slots
    ensures LegalRun(START, slots, steps) && Run(START, slots, steps) == Ok(w)
    ensures Current(w.index, "b", name).Some?
    ensures var blob := Current(w.index, "b", name).value; blob.meta.size == 0 && BytesBehind(w.store, blob.media) == data
  {
    hide Layout, Sound, Named, Worlds.Legal, Worlds.Next, NoUploads, Current, Absorb, MediaBytes;
    EmptyBucket(name);
    var one := Made(slots);
    MadeLegal(slots, name);
    var two := Started(one, slots, name);
    CurrentAfterInsert(one.index, "b", EmptyBlob(Key(name, 1), 0, map[]), "b", name);
    w := Appended(two, slots, data);
    EmptyRun(w, slots);
    var start := StartAppendable("b", "u", name, map[]);
    RunStep(two, slots, Worlds.Append(0, data), w, []);
    RunStep(one, slots, start, two, [Worlds.Append(0, data)] + []);
    RunStep(START, slots, InsertBucket(BUCKET), one, [start] + ([Worlds.Append(0, data)] + []));
    steps := [InsertBucket(BUCKET)] + ([start] + ([Worlds.Append(0, data)] + []));
  }

  lemma Appended(w: World, slots: Slots, data: Bytes) returns (after: World)
    requires Layout(slots) && Named(slots) && Sound(w, slots) && |w.store.medias| == 1 && w.store.medias[0].staging.Some?
    requires MediaBytes(w.store, 0) == []
    ensures Worlds.Legal(w, slots, Worlds.Append(0, data)) && Worlds.Next(w, slots, Worlds.Append(0, data)) == Ok(after)
    ensures after.index == w.index && after.uploads == w.uploads && |after.store.medias| == 1 && MediaBytes(after.store, 0) == data
  {
    hide Layout, Sound, Named, Evolves, Grow, Grew, MediaBytes;
    SoundGrow(w, slots, 0, data);
    after := Worlds.Next(w, slots, Worlds.Append(0, data)).value;
    Grows(w.store, after.store, data);
  }

  lemma Grows(before: Store, after: Store, data: Bytes)
    requires Grew(before, after, 0, data) && |before.medias| == 1 && MediaBytes(before, 0) == []
    ensures |after.medias| == 1 && MediaBytes(after, 0) == data
  {
    assert [] + data == data;
  }

  // ---- A staging name that is gone ----

  lemma Begun(w: World, slots: Slots, name: string) returns (after: World)
    requires Layout(slots) && Named(slots) && Sound(w, slots) && NoUploads(w) && name in slots && "b" in w.index.buckets
    ensures Worlds.Legal(w, slots, NewUpload("b", "u", name))
    ensures Worlds.Next(w, slots, NewUpload("b", "u", name)) == Ok(after) && Sound(after, slots) && after.index == w.index
    ensures after.uploads == [Upload("b", Key(name, 0), Staged)]
    ensures |after.store.medias| == 1 && StagingPlace(after, 0) == Some(Place("b", StagingPath("u")))
  {
    hide Layout, Sound, Named, Evolves, FreshUpload, NoUploads, StageUpload, TreesSound, Mirror, Handles, BlobsSound, IndexSound,
         OwnersSound;
    IdUnused(w);
    NoMedia(w);
    SoundStage(w, slots, "b", "u", name);
    after := Worlds.Next(w, slots, NewUpload("b", "u", name)).value;
    Parts(after, slots);
    StagedIsEmpty(w.store, "b", "u");
    StagedPlace(w.store, "b", "u");
  }

  lemma Remade(w: World, slots: Slots) returns (gone: World, after: World)
    requires Layout(slots) && Named(slots) && Sound(w, slots) && w.index == Absorb(EMPTY, BucketInserted(BUCKET))
    ensures Worlds.Next(w, slots, DeleteBucket("b")) == Ok(gone) && Sound(gone, slots)
    ensures Worlds.Legal(gone, slots, InsertBucket(BUCKET)) && Worlds.Next(gone, slots, InsertBucket(BUCKET)) == Ok(after)
    ensures Sound(after, slots) && after.uploads == w.uploads && after.store.medias == w.store.medias
    ensures "b" in after.index.objects && FileAt(after.store.fs, Place("b", StagingPath("u"))) == None
  {
    hide Layout, Sound, Named, TellBucket, Evolves;
    StepSound(w, slots, DeleteBucket("b"));
    gone := Worlds.Next(w, slots, DeleteBucket("b")).value;
    StepSound(gone, slots, InsertBucket(BUCKET));
    after := Worlds.Next(gone, slots, InsertBucket(BUCKET)).value;
    BucketQuiet(gone.store, BUCKET);
    assert IsStaging(Place("b", StagingPath("u")).path);
  }

  /** A bucket deleted and made again under a staged upload: the insert that finishes the upload fails. */
  lemma StagingGoesWithBucket(slots: Slots, name: string) returns (steps: seq<Step>, w: World)
    requires Layout(slots) && Named(slots) && name in slots
    ensures LegalRun(START, slots, steps) && Run(START, slots, steps) == Ok(w)
    ensures |w.uploads| == 1 && w.uploads[0] == Upload("b", Key(name, 0), Staged) && "b" in w.index.objects
    ensures |w.store.medias| == 1 && FinishWhole(w, slots, 0, map[]).Fail?
  {
    hide Layout, Sound, Named, Worlds.Legal, Worlds.Next, NoUploads, Absorb, FinishWhole, StagingPath;
    EmptyBucket(name);
    var one := Made(slots);
    MadeLegal(slots, name);
    var two := Begun(one, slots, name);
    DeleteLegal(two, slots);
    var three;
    three, w := Remade(two, slots);
    SamePlace(two, w);
    FinishNeedsStaging(w, slots, 0, map[]);
    EmptyRun(w, slots);
    var again := [InsertBucket(BUCKET)] + [];
    RunStep(three, slots, InsertBucket(BUCKET), w, []);
    RunStep(two, slots, DeleteBucket("b"), three, again);
    RunStep(one, slots, NewUpload("b", "u", name), two, [DeleteBucket("b")] + again);
    RunStep(START, slots, InsertBucket(BUCKET), one, [NewUpload("b", "u", name)] + ([DeleteBucket("b")] + again));
    steps := [InsertBucket(BUCKET)] + ([NewUpload("b", "u", name)] + ([DeleteBucket("b")] + again));
  }

  lemma DeleteLegal(w: World, slots: Slots)
    ensures Worlds.Legal(w, slots, DeleteBucket("b"))
  {
  }

  lemma SamePlace(w: World, after: World)
    requires after.store.medias == w.store.medias
    ensures StagingPlace(after, 0) == StagingPlace(w, 0)
    ensures StagingPlace(w, 0).Some? ==> |after.store.medias| > 0
  {
  }

  // ---- One step more ----

  /** A run and one step more. */
  lemma Extended(slots: Slots, steps: seq<Step>, w: World, step: Step) returns (more: seq<Step>, next: World)
    requires Layout(slots) && Named(slots) && LegalRun(START, slots, steps) && Run(START, slots, steps) == Ok(w)
    requires Worlds.Legal(w, slots, step)
    ensures Worlds.Next(w, slots, step) == Ok(next) && LegalRun(START, slots, more) && Run(START, slots, more) == Ok(next)
  {
    hide Layout, Sound, Named, Worlds.Legal, Worlds.Next, Placed, Evolves, Run, LegalRun;
    StartSound(slots);
    RunSound(START, slots, steps);
    StepSound(w, slots, step);
    next := Worlds.Next(w, slots, step).value;
    more := steps + [step];
    StepOn(START, slots, steps, w, step, next);
  }

  /** The run that makes the bucket. */
  lemma MadeRun(slots: Slots) returns (steps: seq<Step>, w: World)
    requires Layout(slots) && Named(slots)
    ensures LegalRun(START, slots, steps) && Run(START, slots, steps) == Ok(w)
    ensures w.index == Absorb(EMPTY, BucketInserted(BUCKET)) && w.generation == 0 && w.labels == map["b" := BUCKET]
  {
    hide Layout, Sound, Named, TellBucket, Evolves, LegalRun, Run, Placed;
    EmptyRun(START, slots);
    steps, w := Extended(slots, [], START, InsertBucket(BUCKET));
  }

  // ---- Callbacks that raise ----

  /** A bucket update that raises is in the index, and the store's label is the old one. */
  lemma RaisedLabelNotTold(slots: Slots) returns (steps: seq<Step>, w: World)
    requires Layout(slots) && Named(slots)
    ensures LegalRun(START, slots, steps) && Run(START, slots, steps) == Ok(w)
    ensures "b" in w.index.buckets && "b" in w.labels && w.labels["b"] != w.index.buckets["b"]
  {
    hide Layout, Sound, Named, LegalRun, Run;
    var one;
    steps, one := MadeRun(slots);
    steps, w := Extended(slots, steps, one, UpdateBucket(BUCKET.(attributes := map["k" := "v"]), true));
    assert BUCKET.attributes == map[] && map["k" := "v"] != map[] by { assert "k" in map["k" := "v"]; }
  }

  lemma NewBytes(slots: Slots, steps: seq<Step>, w: World, name: string, bytes: Bytes) returns (more: seq<Step>, next: World)
    requires Layout(slots) && Named(slots) && LegalRun(START, slots, steps) && Run(START, slots, steps) == Ok(w)
    requires name in slots && "b" in w.index.objects
    ensures LegalRun(START, slots, more) && Run(START, slots, more) == Ok(next) && next.generation == w.generation + 1
    ensures next.index == Absorb(w.index, ObjectInserted("b", BytesBlob(Key(name, w.generation + 1), bytes, map[])))
    ensures ("b", name) !in next.behind
  {
    hide Layout, Sound, Named, LegalRun, Run, TellInsert, BytesBlob, Absorb;
    more, next := Extended(slots, steps, w, InsertBytes("b", name, bytes, map[]));
  }

  /** A patch that raises is in the index, and the metadata the store was last told is another. */
  lemma RaisedPatchNotTold(slots: Slots, name: string) returns (steps: seq<Step>, w: World)
    requires Layout(slots) && Named(slots) && name in slots
    ensures LegalRun(START, slots, steps) && Run(START, slots, steps) == Ok(w) && Current(w.index, "b", name).Some?
    ensures var blob := Current(w.index, "b", name).value; Known(w.behind, "b", blob) != blob.meta
  {
    hide Layout, Sound, Named, LegalRun, Run, Crc32c, Current, Absorb;
    EmptyBucket(name);
    var one, two;
    steps, one := MadeRun(slots);
    steps, two := NewBytes(slots, steps, one, name, []);
    var blob, attributes := BytesBlob(Key(name, 1), [], map[]), map["k" := "v"];
    CurrentAfterInsert(one.index, "b", blob, "b", name);
    HasBucket(one.index, blob);
    steps, w := Extended(slots, steps, two, Patch("b", name, attributes, true));
    CurrentAfterUpdate(two.index, "b", Merged(blob, attributes), "b", name);
    assert "k" in attributes;
  }

  lemma HasBucket(index: Index, blob: Blob)
    requires "b" in index.objects && "b" in index.live
    ensures var after := Absorb(index, ObjectInserted("b", blob));
            "b" in after.objects && "b" in after.live && LiveGeneration(after, "b", blob.meta.name) == Some(blob.meta.generation)
  {
  }

  // ---- Older generations ----

  lemma OlderIsThere(x: Blob, y: Blob)
    requires x.meta.name == y.meta.name && x.meta.generation == 1 && y.meta.generation == 2
    ensures var one := Absorb(Absorb(EMPTY, BucketInserted(BUCKET)), ObjectInserted("b", x));
            var index := Absorb(one, ObjectInserted("b", y));
            && "b" in one.objects && Generation(index, "b", KeyOf(x)) == Some(x)
            && LiveGeneration(index, "b", x.meta.name) == Some(2) && Current(index, "b", x.meta.name) == Some(y)
            && LiveGeneration(Absorb(index, ObjectDeleted("b", KeyOf(y))), "b", x.meta.name) == None
            && Generation(Absorb(index, ObjectDeleted("b", KeyOf(y))), "b", KeyOf(x)) == Some(x)
  {
  }

  /** One name inserted twice: its first generation is in the index, and not live. */
  lemma Twice(slots: Slots, name: string, first: Bytes, second: Bytes) returns (steps: seq<Step>, w: World)
    requires Layout(slots) && Named(slots) && name in slots
    ensures LegalRun(START, slots, steps) && Run(START, slots, steps) == Ok(w) && Sound(w, slots) && Placed(w, slots)
    ensures Generation(w.index, "b", Key(name, 1)).Some? && LiveGeneration(w.index, "b", name) == Some(2)
    ensures Current(w.index, "b", name).Some? && Current(w.index, "b", name).value.meta.generation == 2
    ensures var after := Absorb(w.index, ObjectDeleted("b", Key(name, 2)));
            LiveGeneration(after, "b", name) == None && Generation(after, "b", Key(name, 1)).Some?
  {
    hide Layout, Sound, Named, Placed, LegalRun, Run, Crc32c, Evolves, Absorb;
    EmptyBucket(name);
    var one, two;
    steps, one := MadeRun(slots);
    OlderIsThere(BytesBlob(Key(name, 1), first, map[]), BytesBlob(Key(name, 2), second, map[]));
    steps, two := NewBytes(slots, steps, one, name, first);
    steps, w := NewBytes(slots, steps, two, name, second);
    StartSound(slots);
    RunSound(START, slots, steps);
  }

  /** A delete, or an update, of the first of two generations: the live object loses its files, or gets the other's metadata. */
  lemma OlderGenerationHurts(slots: Slots, name: string, first: Bytes, second: Bytes) returns (steps: seq<Step>, w: World)
    requires Layout(slots) && Named(slots) && name in slots
    ensures LegalRun(START, slots, steps) && Run(START, slots, steps) == Ok(w)
    ensures var deleted := Erase(w, slots, "b", name, 1); deleted.Ok? && !Sound(deleted.value, slots)
    ensures var updated := Amend(w, slots, "b", Key(name, 1), map[]); updated.Ok? && !Sound(updated.value, slots)
  {
    hide Layout, Sound, Named, Placed, LegalRun, Run, Erase, Amend, Absorb, Current, Generation, LiveGeneration;
    steps, w := Twice(slots, name, first, second);
    DeleteMustBeLive(w, slots, "b", name, 1);
    UpdateMustBeLive(w, slots, "b", Key(name, 1), map[]);
  }

  /** An update of a generation after the live one is deleted leaves a sidecar without media. */
  lemma UpdateAfterDelete(slots: Slots, name: string, first: Bytes, second: Bytes) returns (steps: seq<Step>, w: World)
    requires Layout(slots) && Named(slots) && name in slots
    ensures LegalRun(START, slots, steps) && Run(START, slots, steps) == Ok(w)
    ensures var r := Amend(w, slots, "b", Key(name, 1), map[]);
            r.Ok? && !Sound(r.value, slots) && ContentAt(r.value.store.fs, Place("b", slots[name].sidecar)).Some?
            && FileAt(r.value.store.fs, Place("b", slots[name].media)) == None
  {
    hide Layout, Sound, Named, Placed, LegalRun, Run, Amend, Absorb, Current, Generation, LiveGeneration, TellDelete, Evolves, ContentAt, FileAt;
    var two;
    steps, two := Twice(slots, name, first, second);
    steps, w := Extended(slots, steps, two, Worlds.Delete("b", name, 0));
    StartSound(slots);
    RunSound(START, slots, steps);
    GenerationHasBucket(w, slots, "b", Key(name, 1));
    UpdateResurrects(w, slots, "b", Key(name, 1), map[]);
  }

  // ---- A checksum that is wrong for good ----

  lemma OneByte()
    ensures Crc32c([0xFF], 0) != 0
  {
    assert [0xFF as Byte][..0] == [];
    assert Feed(ALL_ONES, []) == ALL_ONES;
    assert Feed(ALL_ONES, [0xFF]) == FeedByte(ALL_ONES, 0xFF);
    assert FeedByte(ALL_ONES, 0xFF) == ShiftOut(0xFFFF_FF00, 8);
    assert ShiftOut(0xFFFF_FF00, 8) == 0x00FF_FFFF by {
      assert ShiftOut(0xFFFF_FF00, 8) == ShiftOut(0x7FFF_FF80, 7);
      assert ShiftOut(0x7FFF_FF80, 7) == ShiftOut(0x3FFF_FFC0, 6);
      assert ShiftOut(0x3FFF_FFC0, 6) == ShiftOut(0x1FFF_FFE0, 5);
      assert ShiftOut(0x1FFF_FFE0, 5) == ShiftOut(0x0FFF_FFF0, 4);
      assert ShiftOut(0x0FFF_FFF0, 4) == ShiftOut(0x07FF_FFF8, 3);
      assert ShiftOut(0x07FF_FFF8, 3) == ShiftOut(0x03FF_FFFC, 2);
      assert ShiftOut(0x03FF_FFFC, 2) == ShiftOut(0x01FF_FFFE, 1);
      assert ShiftOut(0x01FF_FFFE, 1) == ShiftOut(0x00FF_FFFF, 0);
    }
  }

  /** An appendable object written and finished without a checkpoint: its checksum is not that of its bytes. */
  lemma WrongForGood(slots: Slots, name: string) returns (steps: seq<Step>, w: World)
    requires Layout(slots) && Named(slots) && name in slots
    ensures LegalRun(START, slots, steps) && Run(START, slots, steps) == Ok(w) && Current(w.index, "b", name).Some?
    ensures var blob, bytes := Current(w.index, "b", name).value, [0xFF];
            && blob.meta.finalized && blob.media.OnDisk? && MediaBytes(w.store, blob.media.id) == bytes
            && blob.meta.size == |bytes| && blob.meta.crc != Crc32c(bytes, 0)
  {
    hide Layout, Sound, Named, Worlds.Legal, Worlds.Next, NoUploads, Current, Absorb, MediaBytes, LegalRun, Run, Generation, InScope,
         OneInode, Crc32c;
    EmptyBucket(name);
    var one := Made(slots);
    MadeLegal(slots, name);
    EmptyRun(START, slots);
    StepOn(START, slots, [], START, InsertBucket(BUCKET), one);
    var two := Started(one, slots, name);
    StepOn(START, slots, [] + [InsertBucket(BUCKET)], one, StartAppendable("b", "u", name, map[]), two);
    var three := Appended(two, slots, [0xFF]);
    steps := [] + [InsertBucket(BUCKET)] + [StartAppendable("b", "u", name, map[])];
    StepOn(START, slots, steps, two, Worlds.Append(0, [0xFF]), three);
    steps := steps + [Worlds.Append(0, [0xFF])];
    StepSound(two, slots, Worlds.Append(0, [0xFF]));
    var blob := EmptyBlob(Key(name, 1), 0, map[]);
    FirstWrites(one.index, three, slots, name);
    w := FinishAgrees(three, slots, 0);
    StepOn(START, slots, steps, three, FinishAppendable(0), w);
    steps := steps + [FinishAppendable(0)];
    OneInodeIsCurrent(w, slots, "b", name, Finalized(blob, three.store.medias[0], 0), [0xFF]);
    OneByte();
  }

  /** The object that the only upload writes. */
  lemma FirstWrites(index: Index, w: World, slots: Slots, name: string)
    requires "b" in index.objects && "b" in index.live && name in slots && |w.store.medias| == 1
    requires w.index == Absorb(index, ObjectInserted("b", EmptyBlob(Key(name, 1), 0, map[])))
    requires w.uploads == [Upload("b", Key(name, 1), Attached)]
    ensures Written(w, 0) == Some(EmptyBlob(Key(name, 1), 0, map[]))
    ensures InScope(w, slots, 0) && Worlds.Legal(w, slots, FinishAppendable(0))
  {
  }
}
