/**
 The file system under the store: names lead to inodes, inodes hold contents, open descriptors keep
 an inode whatever happens to its names. One tree per bucket (testbench/containment.py).
 */
module Posix {

  import opened Bytes
  import opened Pathing
  import opened Resources
  import opened Wrappers

  type Inode = nat
  type Descriptor = nat

  datatype Content =
    | Media(bytes: Bytes)
    | ObjectSidecar(trueName: string, meta: ObjectMeta)
    | BucketSidecar(bucket: BucketMeta)
    | FolderEnvelope(name: string)

  /** A bucket's directory: files by path, and the directories below it. */
  datatype Tree = Tree(files: map<Path, Inode>, dirs: set<Path>)

  datatype Fs = Fs(trees: map<string, Tree>, inodes: seq<Content>, descriptors: seq<Option<Inode>>)

  datatype Place = Place(bucket: string, path: Path)

  datatype Error = NotFound | NotADirectory | IsADirectory | FileExists | BadDescriptor | Corrupt | Collision | NotStaging | InvalidLength

  datatype Outcome<+T> = Ok(value: T) | Fail(error: Error) {
    predicate IsFailure() { Fail? }
    function PropagateFailure<U>(): Outcome<U>
      requires Fail?
    {
      Fail(error)
    }
    function Extract(): T
      requires Ok?
    {
      value
    }
  }

  // ---- Names ----

  function FileAt(fs: Fs, place: Place): Option<Inode> {
    if place.bucket in fs.trees && place.path in fs.trees[place.bucket].files
    then Some(fs.trees[place.bucket].files[place.path]) else None
  }

  function ContentAt(fs: Fs, place: Place): Option<Content> {
    var file := FileAt(fs, place);
    if file.Some? && file.value < |fs.inodes| then Some(fs.inodes[file.value]) else None
  }

  /** The directory and the ones above it, below the bucket's own. */
  function Prefixes(dir: Path): (r: set<Path>)
    ensures forall p :: p in r <==> p != [] && p <= dir
  {
    var r := set k | 1 <= k <= |dir| :: dir[..k];
    assert forall p: Path :: p != [] && p <= dir ==> p == dir[..|p|];
    r
  }

  predicate IsDir(tree: Tree, dir: Path) {
    dir == [] || dir in tree.dirs
  }

  /** `mkdir -p`, component by component: a file in the way, or an empty component, stops it. */
  function MakeDirs(fs: Fs, bucket: string, dir: Path): Outcome<Fs> {
    if bucket !in fs.trees then Fail(NotFound)
    else
      var tree := fs.trees[bucket];
      if Text("") in dir then Fail(NotFound)
      else if exists p :: p in Prefixes(dir) && p in tree.files then Fail(NotADirectory)
      else Ok(fs.(trees := fs.trees[bucket := tree.(dirs := tree.dirs + Prefixes(dir))]))
  }

  function OpenDir(fs: Fs, bucket: string, dir: Path): Outcome<Fs> {
    if bucket !in fs.trees || !IsDir(fs.trees[bucket], dir) then Fail(NotFound) else Ok(fs)
  }

  /** Point a name at an inode, replacing what it named before. */
  function SetName(fs: Fs, place: Place, inode: Inode): Outcome<Fs>
    requires place.path != []
  {
    if place.bucket !in fs.trees || !IsDir(fs.trees[place.bucket], Dir(place.path)) || Base(place.path) == Text("")
    then Fail(NotFound)
    else
      var tree := fs.trees[place.bucket];
      if place.path in tree.dirs then Fail(IsADirectory)
      else Ok(fs.(trees := fs.trees[place.bucket := tree.(files := tree.files[place.path := inode])]))
  }

  function DropName(fs: Fs, place: Place): Fs {
    if FileAt(fs, place).None? then fs
    else
      var tree := fs.trees[place.bucket];
      fs.(trees := fs.trees[place.bucket := tree.(files := tree.files - {place.path})])
  }

  /** `rmtree`: the directory goes with everything below it. */
  function RemoveDir(fs: Fs, bucket: string, dir: Path): Fs {
    if bucket !in fs.trees || dir !in fs.trees[bucket].dirs then fs
    else
      var tree := fs.trees[bucket];
      var files := map p | p in tree.files && !(dir <= p) :: tree.files[p];
      fs.(trees := fs.trees[bucket := Tree(files, set p | p in tree.dirs && !(dir <= p))])
  }

  function Unlink(fs: Fs, place: Place): Outcome<Fs> {
    if FileAt(fs, place).None? then Fail(NotFound) else Ok(DropName(fs, place))
  }

  /** Write a temporary file and rename it over the name: a new inode under the name. */
  function WriteAtomic(fs: Fs, place: Place, content: Content): Outcome<Fs>
    requires place.path != []
  {
    SetName(fs.(inodes := fs.inodes + [content]), place, |fs.inodes|)
  }

  /** `rename(2)`; two names of the same inode are left alone. */
  function Rename(fs: Fs, source: Place, destination: Place): Outcome<Fs>
    requires destination.path != []
  {
    var file := FileAt(fs, source);
    if file.None? then Fail(NotFound)
    else if FileAt(fs, destination) == file then Ok(fs)
    else
      var named :- SetName(fs, destination, file.value);
      Ok(DropName(named, source))
  }

  /** `link(2)`: the destination must not exist. */
  function Link(fs: Fs, source: Place, destination: Place): Outcome<Fs>
    requires destination.path != []
  {
    var file := FileAt(fs, source);
    if file.None? then Fail(NotFound)
    else if FileAt(fs, destination).Some? then Fail(FileExists)
    else SetName(fs, destination, file.value)
  }

  // ---- Descriptors ----

  function InodeOf(fs: Fs, d: Descriptor): Option<Inode> {
    if d < |fs.descriptors| then fs.descriptors[d] else None
  }

  function Open(fs: Fs, place: Place): Outcome<(Fs, Descriptor)> {
    var file := FileAt(fs, place);
    if file.None? then Fail(NotFound)
    else Ok((fs.(descriptors := fs.descriptors + [Some(file.value)]), |fs.descriptors|))
  }

  /** Open for append, creating an empty file if the name is free. */
  function OpenAppend(fs: Fs, place: Place): Outcome<(Fs, Descriptor)>
    requires place.path != []
  {
    if FileAt(fs, place).Some? then Open(fs, place)
    else
      var created :- WriteAtomic(fs, place, Media([]));
      Open(created, place)
  }

  function Close(fs: Fs, d: Descriptor): Fs {
    if d < |fs.descriptors| then fs.(descriptors := fs.descriptors[d := None]) else fs
  }

  /** `write(2)` on a descriptor opened for append. */
  function Append(fs: Fs, d: Descriptor, data: Bytes): Outcome<Fs> {
    var inode := InodeOf(fs, d);
    if inode.None? || inode.value >= |fs.inodes| || !fs.inodes[inode.value].Media? then Fail(BadDescriptor)
    else Ok(fs.(inodes := fs.inodes[inode.value := Media(fs.inodes[inode.value].bytes + data)]))
  }

  /** `pread(2)`: at most `length` bytes from `offset`. */
  function Pread(fs: Fs, d: Descriptor, length: nat, offset: nat): Outcome<Bytes> {
    var inode := InodeOf(fs, d);
    if inode.None? || inode.value >= |fs.inodes| || !fs.inodes[inode.value].Media? then Fail(BadDescriptor)
    else Ok(Slice(fs.inodes[inode.value].bytes, offset, offset + length))
  }
}
