/** Which sets of object names can share a bucket on disk. */
module Layouts {

  import opened FileStore
  import opened Pathing
  import opened Posix
  import opened Shelves

  /** A name that can be stored at all: not the reserved directory itself, no empty path component. */
  predicate Storable(name: string) {
    NeedsOverflow(name) || (name != ".gcs" && forall k :: 0 <= k < |Split(name)| ==> Split(name)[k] != "")
  }

  /** Names none of whose files would have to be a directory for another. */
  ghost predicate Compatible(names: set<string>) {
    && (forall n :: n in names ==> Storable(n))
    && forall n, m :: n in names && m in names ==>
                        MediaPath(m) !in Prefixes(Dir(MediaPath(n))) && SidecarPath(m) !in Prefixes(Dir(MediaPath(n)))
  }

  // ---- When one name's file is on the way to another's ----

  /** Splitting, one character at a time. */
  lemma SplitCons(c: char, s: string)
    ensures Split([c] + s) == if c == '/' then [[]] + Split(s) else [[c] + Split(s)[0]] + Split(s)[1..]
  {
    assert ([c] + s)[1..] == s;
  }

  lemma HeadAppend(c: char, x: seq<string>, y: seq<string>)
    requires x != []
    ensures [[c] + (x + y)[0]] + (x + y)[1..] == [[c] + x[0]] + x[1..] + y
    ensures [[]] + (x + y) == [[]] + x + y
  {
  }

  lemma {:induction false} SplitAppend(a: string, b: string)
    ensures Split(a + "/" + b) == Split(a) + Split(b)
  {
    if a == [] {
      assert a + "/" + b == ['/'] + b;
      SplitCons('/', b);
      assert Split(a) == [[]];
    } else {
      var c, rest := a[0], a[1..];
      SplitAppend(rest, b);
      assert a + "/" + b == [c] + (rest + "/" + b) && a == [c] + rest;
      SplitCons(c, rest + "/" + b);
      SplitCons(c, rest);
      HeadAppend(c, Split(rest), Split(b));
    }
  }

  lemma {:induction false} JoinAppend(a: seq<string>, b: seq<string>)
    requires a != [] && b != []
    ensures Join(a + b) == Join(a) + "/" + Join(b)
  {
    if |a| == 1 {
      assert (a + b)[1..] == b;
    } else {
      JoinAppend(a[1..], b);
      assert (a + b)[1..] == a[1..] + b;
      assert a[0] + "/" + (Join(a[1..]) + "/" + Join(b)) == a[0] + "/" + Join(a[1..]) + "/" + Join(b);
    }
  }

  lemma SegmentsNest(a: string, b: string)
    ensures Split(a) < Split(b) <==> StartsWith(b, a + "/")
  {
    if StartsWith(b, a + "/") {
      var rest := b[|a| + 1..];
      assert b == a + "/" + rest;
      SplitAppend(a, rest);
    }
    if Split(a) < Split(b) {
      var rest := Split(b)[|Split(a)|..];
      assert Split(b) == Split(a) + rest;
      JoinSplit(a);
      JoinSplit(b);
      JoinAppend(Split(a), rest);
    }
  }

  function Natural(name: string): Path {
    Texts(Split(Escape(name)))
  }

  /** A natural path is on the way to another exactly when the name is a leading run of segments of the other. */
  lemma PathsNest(a: string, b: string)
    ensures Natural(a) in Prefixes(Dir(Natural(b))) <==> StartsWith(b, a + "/")
  {
    SplitEscape(a);
    SplitEscape(b);
    SegmentsNest(a, b);
    var x, y := Split(a), Split(b);
    if Natural(a) in Prefixes(Dir(Natural(b))) {
      forall k | 0 <= k < |x|
        ensures x[k] == y[k]
      {
        assert Natural(a)[k] == Natural(b)[k];
        EscapeInjective(x[k], y[k]);
      }
      assert x == y[..|x|];
    }
    if x < y {
      forall k | 0 <= k < |x|
        ensures Natural(a)[k] == Dir(Natural(b))[k]
      {
      }
      assert Natural(a) == Dir(Natural(b))[..|x|];
    }
  }

  lemma {:induction false} EscapePlain(s: string)
    requires NoPercent(s)
    ensures Escape(s) == s
  {
    if s != [] {
      assert s[0] in s && s == [s[0]] + s[1..];
      assert NoPercent(s[1..]);
      EscapePlain(s[1..]);
      EscapeCons(s[0], s[1..]);
    }
  }

  function Suffixed(segments: seq<string>, suffix: string): seq<string>
    requires segments != []
  {
    segments[..|segments| - 1] + [segments[|segments| - 1] + suffix]
  }

  lemma HeadSuffixed(c: char, x: seq<string>, suffix: string)
    requires x != []
    ensures Suffixed([[c] + x[0]] + x[1..], suffix) == [[c] + Suffixed(x, suffix)[0]] + Suffixed(x, suffix)[1..]
    ensures Suffixed([[]] + x, suffix) == [[]] + Suffixed(x, suffix)
  {
    if |x| == 1 {
      assert [c] + x[0] + suffix == [c] + (x[0] + suffix);
    } else {
      var y := [[c] + x[0]] + x[1..];
      assert y[|y| - 1] == x[|x| - 1];
    }
  }

  /** A suffix without slashes goes to the last segment. */
  lemma {:induction false} SplitSuffix(s: string, suffix: string)
    requires '/' !in suffix
    ensures Split(s + suffix) == Suffixed(Split(s), suffix)
  {
    if s == [] {
      SplitPiece(suffix, []);
      assert suffix + [] == suffix && s + suffix == suffix;
      assert Split([]) == [[]];
      assert Suffixed([[]], suffix) == [[] + suffix] == [suffix];
    } else {
      var c, rest := s[0], s[1..];
      SplitSuffix(rest, suffix);
      assert s + suffix == [c] + (rest + suffix) && s == [c] + rest;
      SplitCons(c, rest + suffix);
      SplitCons(c, rest);
      HeadSuffixed(c, Split(rest), suffix);
    }
  }

  lemma SidecarIsNatural(name: string)
    requires !NeedsOverflow(name)
    ensures SidecarPath(name) == Natural(name + RESERVED_SUFFIX)
  {
    hide NeedsOverflow, Split, Escape;
    EscapeAppend(name, RESERVED_SUFFIX);
    EscapePlain(RESERVED_SUFFIX);
    SplitSuffix(Escape(name), RESERVED_SUFFIX);
    TextsSuffixed(Split(Escape(name)));
  }

  lemma TextsSuffixed(segments: seq<string>)
    requires segments != []
    ensures var p := Texts(segments); Texts(Suffixed(segments, RESERVED_SUFFIX)) == Sibling(p, WithSuffix(Base(p)))
  {
  }

  /** Two natural names are compatible unless one lies below the other, or below the other's sidecar. */
  lemma NaturalNamesNest(a: string, b: string)
    requires !NeedsOverflow(a) && !NeedsOverflow(b)
    ensures MediaPath(a) in Prefixes(Dir(MediaPath(b))) <==> StartsWith(b, a + "/")
    ensures SidecarPath(a) in Prefixes(Dir(MediaPath(b))) <==> StartsWith(b, a + RESERVED_SUFFIX + "/")
  {
    PathsNest(a, b);
    SidecarIsNatural(a);
    PathsNest(a + RESERVED_SUFFIX, b);
  }

  // ---- Slots ----

  function SlotsOf(names: set<string>): Slots {
    map n | n in names :: SlotOf(n)
  }

  lemma NaturalSlot(name: string)
    requires Storable(name) && !NeedsOverflow(name)
    ensures var p := MediaPath(name); p[0] != GCS && Text("") !in p
  {
    var p := MediaPath(name);
    NaturalPathsAreContained(name);
    SplitEscape(name);
    forall k | 0 <= k < |p|
      ensures p[k] != Text("")
    {
      assert NoPercent("");
      EscapedSegment(name, k, "");
      assert Split(name)[k] != "";
    }
  }

  lemma FirstOfPrefix(dir: Path, p: Path)
    requires p in Prefixes(dir)
    ensures p != [] && dir != [] && p[0] == dir[0] && |p| <= |dir|
  {
    assert p == dir[..|p|];
  }

  lemma SuffixedBase(name: string)
    ensures Base(SidecarPath(name)) != Text("")
  {
    assert |RESERVED_SUFFIX| == 8;
  }

  lemma SlotIsProper(name: string)
    requires Storable(name)
    ensures ProperSlot(SlotOf(name))
  {
    var slot := SlotOf(name);
    SidecarNames(name);
    SuffixedBase(name);
    if NeedsOverflow(name) {
      OverflowSlot(name, slot);
    } else {
      NaturalSlot(name);
      PlainSlot(slot);
    }
  }

  lemma OverflowSlot(name: string, slot: Slot)
    requires slot.media == [GCS, OVERFLOW, Digest(name, "")]
    requires slot.sidecar != [] && Dir(slot.sidecar) == Dir(slot.media)
    requires IsSidecarName(Base(slot.sidecar)) && Described(slot.sidecar) == slot.media
    requires !IsSidecarName(Base(slot.media)) && Base(slot.sidecar) != Text("")
    ensures ProperSlot(slot)
  {
    assert slot.sidecar == [GCS, OVERFLOW] + [Base(slot.sidecar)];
    assert Dir(slot.media) == [GCS, OVERFLOW];
    assert BUCKET_JSON !in Prefixes([GCS, OVERFLOW]) by { assert [GCS, OVERFLOW][1] != BUCKET_JSON[1]; }
  }

  lemma PlainSlot(slot: Slot)
    requires slot.media != [] && slot.media[0] != GCS && Text("") !in slot.media
    requires slot.sidecar != [] && Dir(slot.sidecar) == Dir(slot.media)
    requires IsSidecarName(Base(slot.sidecar)) && Described(slot.sidecar) == slot.media
    requires !IsSidecarName(Base(slot.media)) && Base(slot.sidecar) != Text("")
    ensures ProperSlot(slot)
  {
    assert |slot.sidecar| == |slot.media|;
    if |slot.media| > 1 {
      assert slot.sidecar[0] == Dir(slot.sidecar)[0] == Dir(slot.media)[0] == slot.media[0];
    } else {
      assert slot.sidecar == [Base(slot.sidecar)];
      assert GCS.text[|GCS.text| - 1] != RESERVED_SUFFIX[7];
      assert slot.sidecar[0] != GCS;
    }
    forall p | p in Prefixes(Dir(slot.media))
      ensures p[0] != GCS
    {
      FirstOfPrefix(Dir(slot.media), p);
    }
  }

  /** Compatible names have a layout in which no file gets in another's way. */
  lemma LayoutOf(names: set<string>)
    requires Compatible(names)
    ensures Layout(SlotsOf(names))
  {
    var slots := SlotsOf(names);
    forall n | n in slots
      ensures ProperSlot(slots[n])
    {
      SlotIsProper(n);
    }
    forall n, m | n in slots && m in slots
      ensures Separate(slots[n], slots[m])
      ensures n != m ==> slots[n].media != slots[m].media && slots[n].sidecar != slots[m].sidecar
    {
      LayoutIsCollisionFree(n, m);
    }
  }
}
