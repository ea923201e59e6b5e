/**
 What a bucket's tree holds, read as one entry per object name, and what each notification does to
 the entries. The names in play are given with their slots; no slot's file is another's directory.
 */
module Shelves {

  import opened FileStore
  import opened Pathing
  import opened Posix
  import opened Resources
  import opened Wrappers

  type Slots = map<string, Slot>

  /** The scan reads sidecars outside `.gcs`, and under `.gcs/overflow`. */
  predicate Scanned(p: Path) {
    p != [] && IsSidecarName(Base(p)) && (|p| == 1 || p[0] != GCS || (|p| >= 3 && p[1] == OVERFLOW))
  }

  predicate IsStaging(p: Path) {
    |p| == 3 && p[0] == GCS && p[1] == UPLOADS
  }

  predicate IsReserved(p: Path) {
    (p != [] && p[0] == GCS && |p| <= 2) || IsStaging(p)
  }

  /** The file a sidecar describes. */
  function Described(p: Path): (m: Path)
    requires p != [] && IsSidecarName(Base(p))
    ensures m != []
  {
    Sibling(p, Strip(Base(p)))
  }

  ghost predicate ProperSlot(slot: Slot) {
    && slot.media != [] && slot.sidecar != [] && Dir(slot.sidecar) == Dir(slot.media)
    && Scanned(slot.sidecar) && Described(slot.sidecar) == slot.media && !Scanned(slot.media)
    && !IsReserved(slot.media) && !IsReserved(slot.sidecar)
    && Text("") !in slot.media && Base(slot.sidecar) != Text("")
    && BUCKET_JSON !in Prefixes(Dir(slot.media))
    && forall p :: p in Prefixes(Dir(slot.media)) ==> !IsStaging(p)
  }

  /** Neither file of `b` is a directory on the way to `a`. */
  ghost predicate Separate(a: Slot, b: Slot)
    requires a.media != []
  {
    a.media != b.sidecar && b.media !in Prefixes(Dir(a.media)) && b.sidecar !in Prefixes(Dir(a.media))
  }

  ghost predicate Layout(slots: Slots) {
    && (forall n :: n in slots ==> ProperSlot(slots[n]))
    && (forall n, m :: n in slots && m in slots ==> Separate(slots[n], slots[m]))
    && (forall n, m :: n in slots && m in slots && n != m ==>
          slots[n].media != slots[m].media && slots[n].sidecar != slots[m].sidecar)
  }

  // ---- Trees ----

  /** What the tree says about one name: its metadata and the inode of its bytes. */
  datatype Entry = Entry(meta: ObjectMeta, inode: Inode)

  function EntryIn(tree: Tree, inodes: seq<Content>, slot: Slot): Option<Entry> {
    if slot.media in tree.files && slot.sidecar in tree.files && tree.files[slot.sidecar] < |inodes|
       && inodes[tree.files[slot.sidecar]].ObjectSidecar?
    then Some(Entry(inodes[tree.files[slot.sidecar]].meta, tree.files[slot.media])) else None
  }

  ghost predicate Owned(slots: Slots, p: Path) {
    exists n :: n in slots && (p == slots[n].media || p == slots[n].sidecar)
  }

  ghost predicate Leads(slots: Slots, p: Path) {
    exists n :: n in slots && slots[n].media != [] && p in Prefixes(Dir(slots[n].media))
  }

  ghost predicate NoStrayFiles(tree: Tree, inodes: seq<Content>, slots: Slots) {
    forall p :: p in tree.files ==>
                  tree.files[p] < |inodes| && (p == BUCKET_JSON || IsStaging(p) || Owned(slots, p))
  }

  ghost predicate NoStrayDirs(tree: Tree, slots: Slots) {
    && (forall p :: p in tree.dirs ==> p == GCS_DIR || p in SUBDIRS || Leads(slots, p))
    && GCS_DIR in tree.dirs && UPLOADS_DIR in tree.dirs
  }

  /** A name has both files or none, of the right kinds. */
  ghost predicate Shelved(tree: Tree, inodes: seq<Content>, name: string, slot: Slot)
    requires slot.media != []
  {
    && (slot.media in tree.files <==> slot.sidecar in tree.files)
    && (slot.media in tree.files ==>
          && IsDir(tree, Dir(slot.media))
          && tree.files[slot.media] < |inodes| && inodes[tree.files[slot.media]].Media?
          && tree.files[slot.sidecar] < |inodes|
          && match inodes[tree.files[slot.sidecar]]
             case ObjectSidecar(trueName, meta) => trueName == name && meta.name == name
             case _ => false)
  }

  ghost predicate AllShelved(tree: Tree, inodes: seq<Content>, slots: Slots)
    requires Layout(slots)
  {
    forall n :: n in slots ==> Shelved(tree, inodes, n, slots[n])
  }

  /** No two names share their bytes. */
  ghost predicate Unshared(tree: Tree, slots: Slots) {
    forall n, m :: n in slots && m in slots && n != m && slots[n].media in tree.files && slots[m].media in tree.files ==>
                     tree.files[slots[n].media] != tree.files[slots[m].media]
  }

  ghost predicate StagedMedia(tree: Tree, inodes: seq<Content>) {
    forall p :: p in tree.files && IsStaging(p) && tree.files[p] < |inodes| ==> inodes[tree.files[p]].Media?
  }

  ghost predicate Labelled(tree: Tree, inodes: seq<Content>) {
    BUCKET_JSON in tree.files && tree.files[BUCKET_JSON] < |inodes| && inodes[tree.files[BUCKET_JSON]].BucketSidecar?
  }

  ghost predicate Tidy(tree: Tree, inodes: seq<Content>, slots: Slots)
    requires Layout(slots)
  {
    && NoStrayFiles(tree, inodes, slots) && NoStrayDirs(tree, slots)
    && AllShelved(tree, inodes, slots) && Unshared(tree, slots)
    && StagedMedia(tree, inodes) && Labelled(tree, inodes)
  }

  function LabelOf(tree: Tree, inodes: seq<Content>): BucketMeta
    requires Labelled(tree, inodes)
  {
    inodes[tree.files[BUCKET_JSON]].bucket
  }

  // ---- Steps on trees ----

  /** Old inodes keep their content, except that media may have grown. */
  ghost predicate KindsKept(inodes: seq<Content>, after: seq<Content>) {
    && |inodes| <= |after|
    && forall i :: 0 <= i < |inodes| ==> after[i] == inodes[i] || (inodes[i].Media? && after[i].Media?)
  }

  lemma TidyGrows(tree: Tree, inodes: seq<Content>, after: seq<Content>, slots: Slots)
    requires Layout(slots) && Tidy(tree, inodes, slots) && KindsKept(inodes, after)
    ensures Tidy(tree, after, slots) && LabelOf(tree, after) == LabelOf(tree, inodes)
    ensures forall n :: n in slots ==> EntryIn(tree, after, slots[n]) == EntryIn(tree, inodes, slots[n])
  {
    forall n | n in slots
      ensures Shelved(tree, after, n, slots[n]) && EntryIn(tree, after, slots[n]) == EntryIn(tree, inodes, slots[n])
    {
      assert Shelved(tree, inodes, n, slots[n]);
    }
  }

  /** Only the files of one slot changed; staging names may have gone. */
  ghost predicate OnlySlot(before: map<Path, Inode>, after: map<Path, Inode>, slot: Slot) {
    match slot
    case Slot(media, sidecar) =>
      && (forall p :: p in after && p != media && p != sidecar ==> p in before && before[p] == after[p])
      && (forall p :: p in before && p != media && p != sidecar && !IsStaging(p) ==> p in after)
  }

  lemma SlotApart(slots: Slots, n: string, m: string)
    requires Layout(slots) && n in slots && m in slots && n != m
    ensures var a, b := slots[n], slots[m];
            b.media != a.media && b.media != a.sidecar && b.sidecar != a.media && b.sidecar != a.sidecar
    ensures !IsStaging(slots[m].media) && !IsStaging(slots[m].sidecar)
  {
    assert Separate(slots[n], slots[m]) && Separate(slots[m], slots[n]);
    assert ProperSlot(slots[m]);
  }

  ghost predicate SameSlot(tree: Tree, after: Tree, inodes: seq<Content>, slot: Slot) {
    && EntryIn(after, inodes, slot) == EntryIn(tree, inodes, slot)
    && (slot.media in after.files <==> slot.media in tree.files)
    && (slot.media in tree.files ==> slot.media in after.files && after.files[slot.media] == tree.files[slot.media])
  }

  /** The other names see nothing of a step on one slot. */
  lemma OtherKept(tree: Tree, after: Tree, inodes: seq<Content>, slots: Slots, n: string, m: string)
    requires Layout(slots) && n in slots && m in slots && n != m
    requires OnlySlot(tree.files, after.files, slots[n]) && tree.dirs <= after.dirs
    requires Shelved(tree, inodes, m, slots[m])
    ensures Shelved(after, inodes, m, slots[m]) && SameSlot(tree, after, inodes, slots[m])
  {
    SlotApart(slots, n, m);
  }

  ghost predicate OthersKept(tree: Tree, after: Tree, inodes: seq<Content>, slots: Slots, n: string) {
    forall m :: m in slots && m != n ==> SameSlot(tree, after, inodes, slots[m])
  }

  lemma KeepOthers(tree: Tree, after: Tree, inodes: seq<Content>, slots: Slots, n: string)
    requires Layout(slots) && n in slots && AllShelved(tree, inodes, slots)
    requires OnlySlot(tree.files, after.files, slots[n]) && tree.dirs <= after.dirs
    requires ProperSlot(slots[n]) && Shelved(after, inodes, n, slots[n])
    ensures OthersKept(tree, after, inodes, slots, n) && AllShelved(after, inodes, slots)
  {
    forall m | m in slots && m != n
      ensures Shelved(after, inodes, m, slots[m]) && SameSlot(tree, after, inodes, slots[m])
    {
      OtherKept(tree, after, inodes, slots, n, m);
    }
  }

  lemma StayUnshared(tree: Tree, after: Tree, inodes: seq<Content>, slots: Slots, n: string)
    requires n in slots && OthersKept(tree, after, inodes, slots, n) && Unshared(tree, slots)
    requires slots[n].media in after.files ==>
               forall m :: m in slots && m != n && slots[m].media in tree.files ==>
                             tree.files[slots[m].media] != after.files[slots[n].media]
    ensures Unshared(after, slots)
  {
    forall m, k | m in slots && k in slots && m != k && slots[m].media in after.files && slots[k].media in after.files
      ensures after.files[slots[m].media] != after.files[slots[k].media]
    {
      assert m != n ==> SameSlot(tree, after, inodes, slots[m]);
      assert k != n ==> SameSlot(tree, after, inodes, slots[k]);
    }
  }

  /** The reserved files are out of reach of a step on a slot. */
  lemma ReservedKept(tree: Tree, after: Tree, inodes: seq<Content>, slot: Slot)
    requires ProperSlot(slot) && OnlySlot(tree.files, after.files, slot)
    requires StagedMedia(tree, inodes) && Labelled(tree, inodes)
    ensures StagedMedia(after, inodes) && Labelled(after, inodes) && LabelOf(after, inodes) == LabelOf(tree, inodes)
  {
    assert IsReserved(BUCKET_JSON) && !IsStaging(BUCKET_JSON);
  }

  lemma FilesStayKnown(tree: Tree, after: Tree, inodes: seq<Content>, slots: Slots, n: string)
    requires Layout(slots) && n in slots && NoStrayFiles(tree, inodes, slots)
    requires OnlySlot(tree.files, after.files, slots[n])
    requires forall p :: p in after.files && (p == slots[n].media || p == slots[n].sidecar) ==> after.files[p] < |inodes|
    ensures NoStrayFiles(after, inodes, slots)
  {
    forall p | p in after.files
      ensures after.files[p] < |inodes| && (p == BUCKET_JSON || IsStaging(p) || Owned(slots, p))
    {
      if p != slots[n].media && p != slots[n].sidecar {
        assert p in tree.files;
      }
    }
  }

  lemma DirsStayKnown(tree: Tree, after: Tree, slots: Slots, n: string)
    requires Layout(slots) && n in slots && NoStrayDirs(tree, slots)
    requires after.dirs == tree.dirs || after.dirs == tree.dirs + Prefixes(Dir(slots[n].media))
    ensures NoStrayDirs(after, slots)
  {
    assert ProperSlot(slots[n]);
    forall p | p in after.dirs
      ensures p == GCS_DIR || p in SUBDIRS || Leads(slots, p)
    {
      if p !in tree.dirs {
        assert p in Prefixes(Dir(slots[n].media));
      }
    }
  }

  /** A name gets an entry, of bytes no other name has. */
  lemma SetEntry(tree: Tree, after: Tree, inodes: seq<Content>, slots: Slots, n: string, meta: ObjectMeta, i: Inode)
    requires Layout(slots) && Tidy(tree, inodes, slots) && n in slots && meta.name == n
    requires OnlySlot(tree.files, after.files, slots[n])
    requires after.dirs == tree.dirs + Prefixes(Dir(slots[n].media)) ||
             (after.dirs == tree.dirs && IsDir(tree, Dir(slots[n].media)))
    requires slots[n].media in after.files && after.files[slots[n].media] == i < |inodes| && inodes[i].Media?
    requires slots[n].sidecar in after.files && after.files[slots[n].sidecar] < |inodes|
    requires inodes[after.files[slots[n].sidecar]] == ObjectSidecar(n, meta)
    requires forall m :: m in slots && m != n && slots[m].media in tree.files ==> tree.files[slots[m].media] != i
    ensures Tidy(after, inodes, slots) && LabelOf(after, inodes) == LabelOf(tree, inodes)
    ensures EntryIn(after, inodes, slots[n]) == Some(Entry(meta, i))
    ensures OthersKept(tree, after, inodes, slots, n)
  {
    FilesStayKnown(tree, after, inodes, slots, n);
    DirsStayKnown(tree, after, slots, n);
    assert ProperSlot(slots[n]);
    ReservedKept(tree, after, inodes, slots[n]);
    KeepOthers(tree, after, inodes, slots, n);
    StayUnshared(tree, after, inodes, slots, n);
  }

  /** A name loses its entry. */
  lemma DropEntry(tree: Tree, after: Tree, inodes: seq<Content>, slots: Slots, n: string)
    requires Layout(slots) && Tidy(tree, inodes, slots) && n in slots
    requires OnlySlot(tree.files, after.files, slots[n]) && after.dirs == tree.dirs
    requires slots[n].media !in after.files && slots[n].sidecar !in after.files
    ensures Tidy(after, inodes, slots) && Labelled(tree, inodes) && LabelOf(after, inodes) == LabelOf(tree, inodes)
    ensures EntryIn(after, inodes, slots[n]) == None
    ensures OthersKept(tree, after, inodes, slots, n)
  {
    FilesStayKnown(tree, after, inodes, slots, n);
    DirsStayKnown(tree, after, slots, n);
    assert ProperSlot(slots[n]);
    ReservedKept(tree, after, inodes, slots[n]);
    KeepOthers(tree, after, inodes, slots, n);
    StayUnshared(tree, after, inodes, slots, n);
  }
}
