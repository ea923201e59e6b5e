/**
 Where objects live on disk (testbench/pathing.py and `_dest_parts` of testbench/filestore.py).
 A SHA-256 digest is taken to identify the name it was computed from.
 */
module Pathing {

  // ---- Strings ----

  predicate StartsWith(s: string, prefix: string) {
    prefix <= s
  }

  predicate EndsWith(s: string, suffix: string) {
    |suffix| <= |s| && s[|s| - |suffix|..] == suffix
  }

  /** Python's `s.replace(old, new)`: leftmost occurrences first, without overlap. */
  function Replace(s: string, old_: string, new_: string): string
    requires old_ != []
    decreases |s|
  {
    if s == [] then []
    else if StartsWith(s, old_) then new_ + Replace(s[|old_|..], old_, new_)
    else [s[0]] + Replace(s[1..], old_, new_)
  }

  /** `s.split("/")`. */
  function Split(s: string): (r: seq<string>)
    ensures r != []
  {
    if s == [] then [[]]
    else
      var rest := Split(s[1..]);
      if s[0] == '/' then [[]] + rest else [[s[0]] + rest[0]] + rest[1..]
  }

  function Join(segments: seq<string>): string
    requires segments != []
  {
    if |segments| == 1 then segments[0] else segments[0] + "/" + Join(segments[1..])
  }

  function Utf8Size(c: char): nat {
    var code := c as int;
    if code < 0x80 then 1 else if code < 0x800 then 2 else if code < 0x1_0000 then 3 else 4
  }

  function Utf8Length(s: string): nat {
    if s == [] then 0 else Utf8Size(s[0]) + Utf8Length(s[1..])
  }

  // ---- Names ----

  const NAME_MAX := 255
  const RESERVED_PREFIX := ".gcs/"
  const RESERVED_SUFFIX := ".gcsmeta"

  predicate NeedsOverflow(name: string) {
    || EndsWith(name, "/")
    || StartsWith(name, RESERVED_PREFIX) || EndsWith(name, RESERVED_SUFFIX)
    || '\0' in name || StartsWith(name, "/")
    || exists k :: 0 <= k < |Split(name)| && BadSegment(Split(name)[k])
  }

  predicate BadSegment(segment: string) {
    segment == "." || segment == ".." || Utf8Length(segment) > NAME_MAX
  }

  function Escape(name: string): string {
    Replace(name, "%", "%25")
  }

  function Unescape(escaped: string): string {
    Replace(escaped, "%25", "%")
  }

  /** A file or directory name: text, or the digest of a name followed by a suffix. */
  datatype Component = Text(text: string) | Digest(of: string, suffix: string)

  type Path = seq<Component>

  function Texts(segments: seq<string>): (p: Path)
    ensures |p| == |segments|
    ensures forall k :: 0 <= k < |p| ==> p[k] == Text(segments[k])
  {
    seq(|segments|, k requires 0 <= k < |segments| => Text(segments[k]))
  }

  /** A number as a directory name. */
  function Decimal(n: nat): string {
    (if n < 10 then "" else Decimal(n / 10)) + ["0123456789"[n % 10]]
  }

  const GCS := Text(".gcs")
  const OVERFLOW := Text("overflow")

  /** The live media file of an object: a natural path, or a digest under `.gcs/overflow`. */
  function MediaPath(name: string): (p: Path)
    ensures p != []
  {
    if NeedsOverflow(name) then [GCS, OVERFLOW, Digest(name, "")] else Texts(Split(Escape(name)))
  }

  function WithSuffix(c: Component): Component {
    match c
    case Text(text) => Text(text + RESERVED_SUFFIX)
    case Digest(of, suffix) => Digest(of, suffix + RESERVED_SUFFIX)
  }

  /** The scan's test for sidecars: a digest has no dot, so only its suffix can match. */
  predicate IsSidecarName(c: Component) {
    match c
    case Text(text) => EndsWith(text, RESERVED_SUFFIX)
    case Digest(_, suffix) => EndsWith(suffix, RESERVED_SUFFIX)
  }

  function Strip(c: Component): Component
    requires IsSidecarName(c)
  {
    match c
    case Text(text) => Text(text[..|text| - |RESERVED_SUFFIX|])
    case Digest(of, suffix) => Digest(of, suffix[..|suffix| - |RESERVED_SUFFIX|])
  }

  function Dir(p: Path): Path
    requires p != []
  {
    p[..|p| - 1]
  }

  function Base(p: Path): Component
    requires p != []
  {
    p[|p| - 1]
  }

  function Sibling(p: Path, base: Component): (r: Path)
    requires p != []
    ensures r != [] && Dir(r) == Dir(p) && Base(r) == base
  {
    Dir(p) + [base]
  }

  function SidecarPath(name: string): Path {
    Sibling(MediaPath(name), WithSuffix(Base(MediaPath(name))))
  }

  // ---- Escaping ----

  lemma {:induction false} EscapeInverse(name: string)
    ensures Unescape(Escape(name)) == name
  {
    if name != [] {
      var rest := Escape(name[1..]);
      EscapeInverse(name[1..]);
      if name[0] == '%' {
        assert name[..1] == "%";
        assert Escape(name) == "%25" + rest;
        assert ("%25" + rest)[3..] == rest && ("%25" + rest)[..3] == "%25";
      } else {
        assert name[..1] != "%" by { assert name[..1][0] == name[0]; }
        assert Escape(name) == [name[0]] + rest;
        assert Escape(name)[1..] == rest;
        assert !StartsWith(Escape(name), "%25") by { assert Escape(name)[0] != '%'; }
      }
    }
  }

  /** One more character in front. */
  lemma EscapeCons(c: char, rest: string)
    ensures Escape([c] + rest) == (if c == '%' then "%25" else [c]) + Escape(rest)
  {
    var s := [c] + rest;
    assert s[1..] == rest && s[..1] == [c];
    if c != '%' {
      assert s[0] != '%';
      assert !StartsWith(s, "%");
    }
  }

  lemma EscapeInjective(a: string, b: string)
    requires Escape(a) == Escape(b)
    ensures a == b
  {
    EscapeInverse(a);
    EscapeInverse(b);
  }

  predicate NoPercent(s: string) {
    '%' !in s
  }

  lemma {:induction false} UnescapePlain(s: string)
    requires NoPercent(s)
    ensures Unescape(s) == s
  {
    if s != [] {
      assert s[0] in s;
      assert NoPercent(s[1..]);
      UnescapePlain(s[1..]);
    }
  }

  /** A text without a percent sign is the escape of itself only. */
  lemma EscapesTo(name: string, plain: string)
    requires NoPercent(plain)
    ensures Escape(name) == plain ==> name == plain
  {
    EscapeInverse(name);
    UnescapePlain(plain);
  }

  function EscapeAll(segments: seq<string>): (r: seq<string>)
    ensures |r| == |segments|
    ensures forall k :: 0 <= k < |r| ==> r[k] == Escape(segments[k])
  {
    seq(|segments|, k requires 0 <= k < |segments| => Escape(segments[k]))
  }

  /** Escaping works segment by segment. */
  lemma {:induction false} SplitEscape(name: string)
    ensures Split(Escape(name)) == EscapeAll(Split(name))
  {
    if name != [] {
      var c, rest := name[0], name[1..];
      assert name == [c] + rest;
      SplitEscape(rest);
      EscapeCons(c, rest);
      if c == '/' {
        assert Escape(name)[1..] == Escape(rest);
      } else {
        var piece := if c == '%' then "%25" else [c];
        SplitPiece(piece, Escape(rest));
        EscapeCons(c, Split(rest)[0]);
      }
    }
  }

  lemma {:induction false} SplitPiece(piece: string, rest: string)
    requires '/' !in piece
    ensures Split(piece + rest) == [piece + Split(rest)[0]] + Split(rest)[1..]
  {
    if piece == [] {
      assert piece + rest == rest;
      assert piece + Split(rest)[0] == Split(rest)[0];
      assert Split(rest) == [Split(rest)[0]] + Split(rest)[1..];
    } else {
      assert piece[0] in piece;
      SplitPiece(piece[1..], rest);
      assert (piece + rest)[1..] == piece[1..] + rest;
      assert [piece[0]] + (piece[1..] + Split(rest)[0]) == piece + Split(rest)[0];
    }
  }

  lemma {:induction false} JoinSplit(s: string)
    ensures Join(Split(s)) == s
  {
    if s != [] {
      JoinSplit(s[1..]);
      var rest := Split(s[1..]);
      if s[0] == '/' {
        assert Split(s)[1..] == rest;
      } else if |rest| > 1 {
        assert Split(s)[1..] == rest[1..];
      }
    }
  }

  lemma {:induction false} EndsWithLastSegment(s: string)
    ensures EndsWith(s, Split(s)[|Split(s)| - 1])
  {
    if s != [] {
      EndsWithLastSegment(s[1..]);
      StartsWithFirstSegment(s[1..]);
      var rest := Split(s[1..]);
      if s[0] != '/' {
        assert s == [s[0]] + s[1..];
        if |rest| > 1 {
          assert ([[s[0]] + rest[0]] + rest[1..])[|rest| - 1] == rest[|rest| - 1];
        }
      }
    }
  }

  lemma {:induction false} StartsWithFirstSegment(s: string)
    ensures Split(s)[0] != s ==> |Split(s)| > 1 && StartsWith(s, Split(s)[0] + "/")
  {
    if s != [] {
      StartsWithFirstSegment(s[1..]);
      assert s == [s[0]] + s[1..];
    }
  }

  /** Characters that no escape sequence contributes. */
  predicate Untouched(s: string) {
    forall k :: 0 <= k < |s| ==> s[k] !in {'%', '2', '5'}
  }

  lemma EscapeSnoc(init: string, c: char)
    ensures Escape(init + [c]) == Escape(init) + (if c == '%' then "%25" else [c])
  {
    EscapeAppend(init, [c]);
    EscapeCons(c, []);
    assert [c] + [] == [c];
  }

  lemma {:induction false} EscapeAppend(a: string, b: string)
    ensures Escape(a + b) == Escape(a) + Escape(b)
  {
    if a == [] {
      assert a + b == b;
    } else {
      EscapeAppend(a[1..], b);
      assert a == [a[0]] + a[1..] && a + b == [a[0]] + (a[1..] + b);
      EscapeCons(a[0], a[1..]);
      EscapeCons(a[0], a[1..] + b);
    }
  }

  /** Escaping cannot create the reserved suffix. */
  lemma {:induction false} EscapeKeepsSuffix(name: string, suffix: string)
    requires Untouched(suffix) && EndsWith(Escape(name), suffix)
    ensures EndsWith(name, suffix)
  {
    if suffix != [] && name != [] {
      var n, m := |name| - 1, |suffix| - 1;
      var init, c := name[..n], name[n];
      assert name == init + [c];
      EscapeSnoc(init, c);
      var whole := Escape(name);
      assert whole[|whole| - 1] == suffix[m];
      assert c == suffix[m];
      assert whole == Escape(init) + [c];
      assert EndsWith(Escape(init), suffix[..m]);
      EscapeKeepsSuffix(init, suffix[..m]);
      assert suffix == suffix[..m] + [c];
    }
  }

  // ---- The layout ----

  function Last(segments: seq<string>): string
    requires segments != []
  {
    segments[|segments| - 1]
  }

  lemma ReservedUntouched()
    ensures Untouched(RESERVED_SUFFIX)
  {
  }

  lemma NaturalBaseIsNotSidecar(name: string)
    requires !EndsWith(name, RESERVED_SUFFIX)
    ensures !EndsWith(Last(Split(Escape(name))), RESERVED_SUFFIX)
  {
    hide Split, Escape, Untouched;
    SplitEscape(name);
    EndsWithLastSegment(name);
    assert Untouched(RESERVED_SUFFIX) by { ReservedUntouched(); }
    var last := Last(Split(name));
    assert Last(Split(Escape(name))) == Escape(last);
    if EndsWith(Escape(last), RESERVED_SUFFIX) {
      EscapeKeepsSuffix(last, RESERVED_SUFFIX);
      EndsWithTransitive(name, last, RESERVED_SUFFIX);
    }
  }

  lemma EndsWithTransitive(s: string, middle: string, suffix: string)
    requires EndsWith(s, middle) && EndsWith(middle, suffix)
    ensures EndsWith(s, suffix)
  {
    assert s[|s| - |suffix|..] == s[|s| - |middle|..][|middle| - |suffix|..];
  }

  lemma SuffixStrips(c: Component)
    ensures IsSidecarName(WithSuffix(c)) && Strip(WithSuffix(c)) == c
  {
    match c
    case Text(text) =>
      assert (text + RESERVED_SUFFIX)[..|text|] == text;
    case Digest(_, suffix) =>
      assert (suffix + RESERVED_SUFFIX)[..|suffix|] == suffix;
  }

  /** Sidecars are recognised by name, media files are not, and stripping leads back to the media file. */
  lemma SidecarNames(name: string)
    ensures !IsSidecarName(Base(MediaPath(name)))
    ensures IsSidecarName(Base(SidecarPath(name)))
    ensures Sibling(SidecarPath(name), Strip(Base(SidecarPath(name)))) == MediaPath(name)
  {
    hide Split, Escape, BadSegment;
    SuffixStrips(Base(MediaPath(name)));
    if !NeedsOverflow(name) {
      NaturalBaseIsNotSidecar(name);
    }
  }

  lemma MediaPathsAreDistinct(a: string, b: string)
    requires MediaPath(a) == MediaPath(b)
    ensures a == b
  {
    assert NeedsOverflow(a) == NeedsOverflow(b) by {
      assert MediaPath(a)[|MediaPath(a)| - 1] == MediaPath(b)[|MediaPath(b)| - 1];
    }
    if !NeedsOverflow(a) {
      var x, y := Split(Escape(a)), Split(Escape(b));
      forall k | 0 <= k < |x| ensures x[k] == y[k] {
        assert MediaPath(a)[k] == MediaPath(b)[k];
      }
      assert x == y;
      JoinSplit(Escape(a));
      JoinSplit(Escape(b));
      EscapeInjective(a, b);
    } else {
      assert MediaPath(a)[2] == MediaPath(b)[2];
    }
  }

  /** No two names share a file, and no media file is another name's sidecar. */
  lemma LayoutIsCollisionFree(a: string, b: string)
    ensures MediaPath(a) != SidecarPath(b)
    ensures a != b ==> MediaPath(a) != MediaPath(b) && SidecarPath(a) != SidecarPath(b)
  {
    SidecarNames(a);
    SidecarNames(b);
    if a != b {
      if MediaPath(a) == MediaPath(b) {
        MediaPathsAreDistinct(a, b);
      }
      if SidecarPath(a) == SidecarPath(b) {
        MediaPathsAreDistinct(a, b);
      }
    }
  }

  /** What the segments of a name look like once escaped. */
  lemma EscapedSegment(name: string, k: nat, plain: string)
    requires k < |Split(name)| && NoPercent(plain)
    ensures |Split(Escape(name))| == |Split(name)|
    ensures Split(Escape(name))[k] == plain ==> Split(name)[k] == plain
  {
    SplitEscape(name);
    EscapesTo(Split(name)[k], plain);
  }

  lemma FirstSegment(name: string, plain: string)
    requires NoPercent(plain) && !StartsWith(name, plain + "/")
    ensures Split(Escape(name))[0] == plain ==> name == plain
  {
    EscapedSegment(name, 0, plain);
    StartsWithFirstSegment(name);
  }

  /** A natural path stays inside the bucket and out of the reserved directory. */
  lemma NaturalPathsAreContained(name: string)
    requires !NeedsOverflow(name)
    ensures var p := MediaPath(name);
            && (forall k :: 0 <= k < |p| ==> p[k].Text? && p[k].text != "." && p[k].text != "..")
            && (p[0] == GCS ==> name == ".gcs")
            && (p[0] == Text("") ==> name == "")
  {
    var p := MediaPath(name);
    SplitEscape(name);
    forall k | 0 <= k < |p| ensures p[k].Text? && p[k].text != "." && p[k].text != ".." {
      EscapedSegment(name, k, ".");
      EscapedSegment(name, k, "..");
      assert !BadSegment(Split(name)[k]);
    }
    assert ".gcs" + "/" == RESERVED_PREFIX;
    assert "" + "/" == "/";
    FirstSegment(name, ".gcs");
    FirstSegment(name, "");
  }

  /** The one name that leads into the reserved directory without the overflow. */
  lemma DotGcs()
    ensures Escape(".gcs") == ".gcs" && Split(".gcs") == [".gcs"]
  {
    assert ".gcs"[1..] == "gcs" && "gcs"[1..] == "cs" && "cs"[1..] == "s" && "s"[1..] == "";
    assert Replace("s", "%", "%25") == "s" && Replace("cs", "%", "%25") == "cs" && Replace("gcs", "%", "%25") == "gcs";
    assert Split("s") == ["s"] && Split("cs") == ["cs"] && Split("gcs") == ["gcs"];
  }

  // ---- Which names leave the natural layout ----

  /** A segment of a name, by where it begins and ends. */
  predicate SegmentAt(name: string, i: nat, j: nat) {
    && i <= j <= |name| && '/' !in name[i..j]
    && (i == 0 || name[i - 1] == '/') && (j == |name| || name[j] == '/')
  }

  lemma {:induction false} SegmentFound(name: string, k: nat) returns (i: nat, j: nat)
    requires k < |Split(name)|
    ensures SegmentAt(name, i, j) && name[i..j] == Split(name)[k] && (k == 0 <==> i == 0)
  {
    i, j := 0, 0;
    if name != "" && !(name[0] == '/' && k == 0) {
      var c, rest := name[0], name[1..];
      i, j := SegmentFound(rest, if c == '/' then k - 1 else k);
      assert rest[i..j] == name[i + 1..j + 1];
      if c != '/' && k == 0 {
        assert name[0..j + 1] == [c] + rest[0..j];
        j := j + 1;
      } else {
        i, j := i + 1, j + 1;
      }
    }
  }

  lemma {:induction false} SegmentListed(name: string, i: nat, j: nat) returns (k: nat)
    requires SegmentAt(name, i, j)
    ensures k < |Split(name)| && name[i..j] == Split(name)[k] && (k == 0 <==> i == 0)
  {
    k := 0;
    if name != "" && !(name[0] == '/' && i == 0) {
      var c, rest := name[0], name[1..];
      if i == 0 {
        assert j > 0 && name[0..j] == [c] + rest[0..j - 1];
        var first := SegmentListed(rest, 0, j - 1);
      } else {
        assert rest[i - 1..j - 1] == name[i..j];
        var other := SegmentListed(rest, i - 1, j - 1);
        k := if c == '/' then other + 1 else other;
      }
    }
  }

  /** A segment that means another directory, or is longer than a file name may be. */
  predicate BadAt(name: string, i: nat, j: nat) {
    SegmentAt(name, i, j) && (name[i..j] == "." || name[i..j] == ".." || Utf8Length(name[i..j]) > 255)
  }

  /** Names that a path would not lead back to, or that the reserved directory is kept clear of. */
  ghost predicate Unrepresentable(name: string) {
    || (name != "" && (name[0] == '/' || name[|name| - 1] == '/')) || '\0' in name
    || (|name| >= 5 && name[..5] == ".gcs/") || (|name| >= 8 && name[|name| - 8..] == ".gcsmeta")
    || exists i: nat, j: nat :: BadAt(name, i, j)
  }

  lemma SomeBadSegment(name: string)
    ensures (exists k :: 0 <= k < |Split(name)| && BadSegment(Split(name)[k])) <==> exists i: nat, j: nat :: BadAt(name, i, j)
  {
    hide Split, Utf8Length, SegmentAt;
    forall k | 0 <= k < |Split(name)| && BadSegment(Split(name)[k])
      ensures exists i: nat, j: nat :: BadAt(name, i, j)
    {
      var i, j := SegmentFound(name, k);
      Within(name, i, j);
      assert BadAt(name, i, j);
    }
    forall i: nat, j: nat | BadAt(name, i, j)
      ensures exists k :: 0 <= k < |Split(name)| && BadSegment(Split(name)[k])
    {
      Within(name, i, j);
      var k := SegmentListed(name, i, j);
      assert BadSegment(Split(name)[k]);
    }
  }

  lemma Within(name: string, i: nat, j: nat)
    requires SegmentAt(name, i, j)
    ensures i <= j <= |name|
  {
  }

  /**
   A name is kept under its digest exactly if it is unrepresentable. Every other name is kept under a path
   whose parts, unescaped, are its segments, and joined with slashes the name.
   */
  lemma LayoutDecided(name: string)
    ensures if Unrepresentable(name) then MediaPath(name) == [Text(".gcs"), Text("overflow"), Digest(name, "")]
            else
              var p := MediaPath(name);
              && |p| == |Split(name)| && Join(Split(name)) == name
              && forall k :: 0 <= k < |p| ==> p[k].Text? && Unescape(p[k].text) == Split(name)[k]
  {
    hide Split, Escape, Unescape, BadAt, BadSegment;
    SomeBadSegment(name);
    SlashEnds(name);
    if !NeedsOverflow(name) {
      SplitEscape(name);
      JoinSplit(name);
      forall k | 0 <= k < |Split(name)|
        ensures Unescape(Escape(Split(name)[k])) == Split(name)[k]
      {
        EscapeInverse(Split(name)[k]);
      }
    }
  }

  lemma SlashEnds(name: string)
    ensures EndsWith(name, "/") <==> name != "" && name[|name| - 1] == '/'
    ensures StartsWith(name, "/") <==> name != "" && name[0] == '/'
    ensures StartsWith(name, RESERVED_PREFIX) <==> |name| >= 5 && name[..5] == ".gcs/"
    ensures EndsWith(name, RESERVED_SUFFIX) <==> |name| >= 8 && name[|name| - 8..] == ".gcsmeta"
  {
    if name != "" {
      assert name[|name| - 1..] == [name[|name| - 1]];
      assert name[..1] == [name[0]];
    }
  }

  /** Bytes are counted as characters, up to four for one; the characters of ASCII are one each. */
  lemma {:induction false} Utf8Counts(s: string)
    ensures |s| <= Utf8Length(s) <= 4 * |s|
    ensures (forall c :: c in s ==> c as int < 128) ==> Utf8Length(s) == |s|
    ensures forall c :: c in s && c as int >= 128 ==> Utf8Length(s) > |s|
  {
    if s != "" {
      Utf8Counts(s[1..]);
      assert s == [s[0]] + s[1..];
      assert s[0] in s && forall c :: c in s[1..] ==> c in s;
    }
  }
}
