/** Listing the objects of a bucket (`list_object` of testbench/database.py). */
module ListObjects {

  import opened Resources
  import opened Pathing
  import opened Wrappers

  datatype Request = Request(
    delimiter: string,
    prefix: string,
    versions: bool,
    startOffset: string,
    endOffset: string,
    includeTrailingDelimiter: bool,
    matchGlob: Option<string -> bool>,
    softDeleted: bool)

  datatype Listing = Listing(items: seq<ObjectMeta>, prefixes: seq<string>) | BadRequest

  // ---- Names in order ----

  /** Python's `a < b` on strings. */
  predicate Less(a: string, b: string) {
    b != [] && (a == [] || a[0] < b[0] || (a[0] == b[0] && Less(a[1..], b[1..])))
  }

  lemma {:induction false} LessTotal(a: string, b: string)
    ensures a == b || Less(a, b) || Less(b, a)
    ensures !(Less(a, b) && Less(b, a)) && !Less(a, a)
  {
    if a != [] && b != [] {
      LessTotal(a[1..], b[1..]);
      LessTotal(a[1..], a[1..]);
      if a[0] == b[0] && a[1..] == b[1..] {
        assert a == [a[0]] + a[1..] && b == [b[0]] + b[1..];
      }
    } else if a != [] {
      LessTotal(a[1..], a[1..]);
    }
  }

  lemma {:induction false} LessTransitive(a: string, b: string, c: string)
    requires Less(a, b) && Less(b, c)
    ensures Less(a, c)
  {
    if a != [] && a[0] == b[0] == c[0] {
      LessTransitive(a[1..], b[1..], c[1..]);
    }
  }

  /** `a` ends where `b` goes on, or has the smaller character where they first differ. */
  ghost predicate Precedes(a: string, b: string) {
    exists k: nat :: k <= |a| && k < |b| && a[..k] == b[..k] && (k == |a| || a[k] < b[k])
  }

  lemma {:induction false} FirstDifference(a: string, b: string) returns (k: nat)
    requires Less(a, b)
    ensures k <= |a| && k < |b| && a[..k] == b[..k] && (k == |a| || a[k] < b[k])
  {
    k := 0;
    if a != [] && a[0] == b[0] {
      var rest := FirstDifference(a[1..], b[1..]);
      k := rest + 1;
      assert a[..k] == [a[0]] + a[1..][..rest] && b[..k] == [b[0]] + b[1..][..rest];
    }
  }

  lemma {:induction false} DifferenceDecides(a: string, b: string, k: nat)
    requires k <= |a| && k < |b| && a[..k] == b[..k] && (k == |a| || a[k] < b[k])
    ensures Less(a, b)
  {
    if k > 0 {
      assert a[0] == a[..k][0] == b[..k][0];
      assert a[1..][..k - 1] == a[..k][1..] && b[1..][..k - 1] == b[..k][1..];
      DifferenceDecides(a[1..], b[1..], k - 1);
    }
  }

  /** That is the order of the listing. */
  lemma LessDecided(a: string, b: string)
    ensures Less(a, b) <==> Precedes(a, b)
  {
    hide Less;
    if Less(a, b) {
      var k := FirstDifference(a, b);
    }
    if Precedes(a, b) {
      var k: nat :| k <= |a| && k < |b| && a[..k] == b[..k] && (k == |a| || a[k] < b[k]);
      DifferenceDecides(a, b, k);
    }
  }

  // ---- Which objects, and as what ----

  /** The first occurrence of `part` in `s` at or after `from`, or -1. */
  function Find(s: string, part: string, from: nat): (i: int)
    ensures i == -1 || (from <= i && i + |part| <= |s| && s[i..i + |part|] == part)
    decreases |s| - from
  {
    if from + |part| > |s| then -1
    else if s[from..from + |part|] == part then from
    else Find(s, part, from + 1)
  }

  lemma {:induction false} FindFirst(s: string, part: string, from: nat, k: nat)
    requires from <= k && k + |part| <= |s| && s[k..k + |part|] == part
    ensures from <= Find(s, part, from) <= k
    decreases |s| - from
  {
    if s[from..from + |part|] != part {
      FindFirst(s, part, from + 1, k);
    }
  }

  predicate Selected(blob: Blob, live: map<string, nat>, request: Request) {
    var name := blob.meta.name;
    && (request.softDeleted || request.versions || (name in live && live[name] == blob.meta.generation))
    && StartsWith(name, request.prefix) && !Less(name, request.startOffset)
    && (request.endOffset == "" || Less(name, request.endOffset))
    && (request.matchGlob.None? || request.matchGlob.value(name))
  }

  /** The prefix a name is rolled up into; one that begins with the delimiter is not rolled up. */
  function RollUp(name: string, request: Request): (p: Option<string>)
    ensures p.Some? ==> p.value <= name
  {
    var i := Find(name, request.delimiter, |request.prefix|);
    if request.delimiter != "" && i > 0 then Some(name[..i + 1]) else None
  }

  predicate ShownAsItem(name: string, request: Request) {
    var p := RollUp(name, request);
    p.None? || (|p.value| == |name| && request.includeTrailingDelimiter)
  }

  function Items(objects: seq<Blob>, live: map<string, nat>, request: Request): seq<ObjectMeta> {
    if objects == [] then []
    else
      var last := objects[|objects| - 1];
      Items(objects[..|objects| - 1], live, request) +
      if Selected(last, live, request) && ShownAsItem(last.meta.name, request) then [last.meta] else []
  }

  ghost predicate RolledUp(objects: seq<Blob>, live: map<string, nat>, request: Request, p: string) {
    exists k :: 0 <= k < |objects| && Selected(objects[k], live, request) && RollUp(objects[k].meta.name, request) == Some(p)
  }

  // ---- Sorting ----

  predicate InOrder(items: seq<ObjectMeta>) {
    forall i, j :: 0 <= i < j < |items| ==> !Less(items[j].name, items[i].name)
  }

  predicate Increasing(names: seq<string>) {
    forall i, j :: 0 <= i < j < |names| ==> Less(names[i], names[j])
  }

  function OfName(items: seq<ObjectMeta>, name: string): seq<ObjectMeta> {
    if items == [] then []
    else OfName(items[..|items| - 1], name) + if items[|items| - 1].name == name then [items[|items| - 1]] else []
  }

  lemma {:induction false} OfNameAppend(a: seq<ObjectMeta>, b: seq<ObjectMeta>, name: string)
    ensures OfName(a + b, name) == OfName(a, name) + OfName(b, name)
  {
    if b == [] {
      assert a + b == a;
    } else {
      OfNameAppend(a, b[..|b| - 1], name);
      assert (a + b)[..|a + b| - 1] == a + b[..|b| - 1];
    }
  }

  /** A stable sort by name: the same items in order, those of one name as they came. */
  method SortItems(items: seq<ObjectMeta>) returns (sorted: seq<ObjectMeta>)
    ensures multiset(sorted) == multiset(items) && InOrder(sorted)
    ensures forall name :: OfName(sorted, name) == OfName(items, name)
  {
    sorted := [];
    for k := 0 to |items|
      invariant multiset(sorted) == multiset(items[..k]) && InOrder(sorted)
      invariant forall name :: OfName(sorted, name) == OfName(items[..k], name)
    {
      assert items[..k + 1] == items[..k] + [items[k]];
      assert items[..k + 1][..k] == items[..k];
      sorted := InsertItem(sorted, items[k]);
    }
    assert items[..|items|] == items;
  }

  method InsertItem(sorted: seq<ObjectMeta>, item: ObjectMeta) returns (r: seq<ObjectMeta>)
    requires InOrder(sorted)
    ensures multiset(r) == multiset(sorted) + multiset{item} && InOrder(r)
    ensures forall name :: OfName(r, name) == OfName(sorted, name) + if item.name == name then [item] else []
  {
    var i := |sorted|;
    while i > 0 && Less(item.name, sorted[i - 1].name)
      invariant 0 <= i <= |sorted|
      invariant forall k :: i <= k < |sorted| ==> Less(item.name, sorted[k].name)
    {
      i := i - 1;
    }
    r := sorted[..i] + [item] + sorted[i..];
    assert sorted == sorted[..i] + sorted[i..];
    InsertedInOrder(sorted, item, i);
    InsertedAmongEquals(sorted, item, i);
  }

  lemma InsertedInOrder(sorted: seq<ObjectMeta>, item: ObjectMeta, i: nat)
    requires InOrder(sorted) && i <= |sorted|
    requires forall k :: i <= k < |sorted| ==> Less(item.name, sorted[k].name)
    requires i > 0 ==> !Less(item.name, sorted[i - 1].name)
    ensures InOrder(sorted[..i] + [item] + sorted[i..])
  {
    forall k | 0 <= k < i
      ensures !Less(item.name, sorted[k].name)
    {
      if k < i - 1 && Less(item.name, sorted[k].name) {
        LessTotal(sorted[i - 1].name, sorted[k].name);
        LessTotal(item.name, sorted[i - 1].name);
        if Less(sorted[k].name, sorted[i - 1].name) {
          LessTransitive(item.name, sorted[k].name, sorted[i - 1].name);
        }
      }
    }
    forall k | i <= k < |sorted|
      ensures !Less(sorted[k].name, item.name)
    {
      LessTotal(sorted[k].name, item.name);
    }
  }

  lemma InsertedAmongEquals(sorted: seq<ObjectMeta>, item: ObjectMeta, i: nat)
    requires i <= |sorted| && forall k :: i <= k < |sorted| ==> Less(item.name, sorted[k].name)
    ensures forall name :: OfName(sorted[..i] + [item] + sorted[i..], name) ==
                           OfName(sorted, name) + if item.name == name then [item] else []
  {
    forall name
      ensures OfName(sorted[..i] + [item] + sorted[i..], name) == OfName(sorted, name) + if item.name == name then [item] else []
    {
      assert sorted[..i] + sorted[i..] == sorted;
      InsertedBetween(sorted[..i], item, sorted[i..], name);
    }
  }

  lemma InsertedBetween(before: seq<ObjectMeta>, item: ObjectMeta, after: seq<ObjectMeta>, name: string)
    requires forall k :: 0 <= k < |after| ==> Less(item.name, after[k].name)
    ensures OfName(before + [item] + after, name) == OfName(before + after, name) + if item.name == name then [item] else []
  {
    OfNameAppend(before + [item], after, name);
    OfNameAppend(before, [item], name);
    OfNameAppend(before, after, name);
    OfOne(item, name);
    if item.name == name {
      NoneOfName(after, name);
    }
  }

  lemma OfOne(item: ObjectMeta, name: string)
    ensures OfName([item], name) == if item.name == name then [item] else []
  {
    assert [item][..0] == [];
  }

  lemma {:induction false} NoneOfName(items: seq<ObjectMeta>, name: string)
    requires forall k :: 0 <= k < |items| ==> Less(name, items[k].name)
    ensures OfName(items, name) == []
  {
    if items != [] {
      LessTotal(name, name);
      NoneOfName(items[..|items| - 1], name);
    }
  }

  method SortNames(names: set<string>) returns (sorted: seq<string>)
    ensures Increasing(sorted) && forall name :: name in sorted <==> name in names
  {
    sorted := [];
    var todo := names;
    while todo != {}
      invariant todo <= names && Increasing(sorted)
      invariant forall name :: name in sorted <==> name in names - todo
      decreases |todo|
    {
      var name :| name in todo;
      todo := todo - {name};
      sorted := InsertName(sorted, name);
    }
  }

  method InsertName(sorted: seq<string>, name: string) returns (r: seq<string>)
    requires Increasing(sorted) && name !in sorted
    ensures Increasing(r) && forall n :: n in r <==> n in sorted || n == name
  {
    var i := |sorted|;
    while i > 0 && Less(name, sorted[i - 1])
      invariant 0 <= i <= |sorted|
      invariant forall k :: i <= k < |sorted| ==> Less(name, sorted[k])
    {
      i := i - 1;
    }
    r := sorted[..i] + [name] + sorted[i..];
    assert sorted == sorted[..i] + sorted[i..];
    forall k | 0 <= k < i
      ensures Less(sorted[k], name)
    {
      LessTotal(name, sorted[i - 1]);
      assert sorted[i - 1] in sorted;
      if k < i - 1 {
        LessTransitive(sorted[k], sorted[i - 1], name);
      }
    }
  }

  // ---- The listing ----

  method ListObjects(objects: seq<Blob>, softDeleted: seq<Blob>, softDeletePolicy: bool, live: map<string, nat>, request: Request)
    returns (r: Listing)
    ensures r.BadRequest? <==> request.softDeleted && (!softDeletePolicy || request.versions)
    ensures r.Listing? ==>
              var among := if request.softDeleted then softDeleted else objects;
              && multiset(r.items) == multiset(Items(among, live, request)) && InOrder(r.items)
              && (forall name :: OfName(r.items, name) == OfName(Items(among, live, request), name))
              && Increasing(r.prefixes) && forall p :: p in r.prefixes <==> RolledUp(among, live, request, p)
  {
    if (request.softDeleted && !softDeletePolicy) || (request.softDeleted && request.versions) {
      return BadRequest;
    }
    var among := objects;
    if request.softDeleted {
      among := softDeleted;
    }
    var items, prefixes := Collect(among, live, request);
    var sortedItems := SortItems(items);
    var sortedPrefixes := SortNames(prefixes);
    return Listing(sortedItems, sortedPrefixes);
  }

  method Collect(objects: seq<Blob>, live: map<string, nat>, request: Request) returns (items: seq<ObjectMeta>, prefixes: set<string>)
    ensures items == Items(objects, live, request) && forall p :: p in prefixes <==> RolledUp(objects, live, request, p)
  {
    items, prefixes := [], {};
    for k := 0 to |objects|
      invariant items == Items(objects[..k], live, request)
      invariant forall p :: p in prefixes <==> RolledUp(objects[..k], live, request, p)
    {
      var item, prefix := Look(objects[k], live, request);
      assert objects[..k + 1][..k] == objects[..k] && objects[..k + 1] == objects[..k] + [objects[k]];
      RolledUpOneMore(objects[..k], objects[k], live, request);
      if prefix.Some? {
        prefixes := prefixes + {prefix.value};
      }
      if item {
        items := items + [objects[k].meta];
      }
    }
    assert objects[..|objects|] == objects;
  }

  /** One object: whether it is listed as an item, and the prefix it adds. */
  method Look(blob: Blob, live: map<string, nat>, request: Request) returns (item: bool, prefix: Option<string>)
    ensures item <==> Selected(blob, live, request) && ShownAsItem(blob.meta.name, request)
    ensures prefix == if Selected(blob, live, request) then RollUp(blob.meta.name, request) else None
  {
    var name := blob.meta.name;
    if !request.softDeleted && !request.versions && (name !in live || live[name] != blob.meta.generation) {
      return false, None;
    }
    if !StartsWith(name, request.prefix) {
      return false, None;
    }
    if Less(name, request.startOffset) {
      return false, None;
    }
    if request.endOffset != "" && !Less(name, request.endOffset) {
      return false, None;
    }
    if request.matchGlob.Some? && !request.matchGlob.value(name) {
      return false, None;
    }
    var i := Find(name, request.delimiter, |request.prefix|);
    if request.delimiter != "" && i > 0 {
      if i < |name| - 1 || !request.includeTrailingDelimiter {
        return false, Some(name[..i + 1]);
      }
      return true, Some(name[..i + 1]);
    }
    return true, None;
  }

  lemma RolledUpOneMore(objects: seq<Blob>, blob: Blob, live: map<string, nat>, request: Request)
    ensures forall p :: RolledUp(objects + [blob], live, request, p) <==>
                        RolledUp(objects, live, request, p) ||
                        (Selected(blob, live, request) && RollUp(blob.meta.name, request) == Some(p))
  {
    var more := objects + [blob];
    forall p
      ensures RolledUp(more, live, request, p) <==>
              RolledUp(objects, live, request, p) || (Selected(blob, live, request) && RollUp(blob.meta.name, request) == Some(p))
    {
      if RolledUp(objects, live, request, p) {
        var k :| 0 <= k < |objects| && Selected(objects[k], live, request) && RollUp(objects[k].meta.name, request) == Some(p);
        assert more[k] == objects[k];
      }
      if Selected(blob, live, request) && RollUp(blob.meta.name, request) == Some(p) {
        assert more[|objects|] == blob;
      }
    }
  }

  // ---- What a listing says ----

  lemma {:induction false} ItemsAre(objects: seq<Blob>, live: map<string, nat>, request: Request, meta: ObjectMeta)
    ensures meta in Items(objects, live, request) <==>
            exists k :: 0 <= k < |objects| && Selected(objects[k], live, request) && objects[k].meta == meta
                        && ShownAsItem(meta.name, request)
  {
    if objects != [] {
      var n := |objects| - 1;
      var init := objects[..n];
      ItemsAre(init, live, request, meta);
      assert objects[n] == objects[|objects| - 1];
      if exists k :: 0 <= k < |objects| && Selected(objects[k], live, request) && objects[k].meta == meta
                     && ShownAsItem(meta.name, request) {
        var k :| 0 <= k < |objects| && Selected(objects[k], live, request) && objects[k].meta == meta
                 && ShownAsItem(meta.name, request);
        if k < n {
          assert init[k] == objects[k];
        }
      }
    }
  }

  /**
   Every selected object is an item or is covered by a prefix; it is both exactly when its name is the
   prefix itself and trailing delimiters are included. Nothing comes from an object not selected.
   */
  lemma NamesArePartitioned(objects: seq<Blob>, live: map<string, nat>, request: Request, k: nat)
    requires k < |objects| && Selected(objects[k], live, request)
    ensures var meta := objects[k].meta;
            var p := RollUp(meta.name, request);
            && (meta in Items(objects, live, request) || (p.Some? && RolledUp(objects, live, request, p.value)))
            && (meta in Items(objects, live, request) && p.Some? <==> p == Some(meta.name) && request.includeTrailingDelimiter)
  {
    ItemsAre(objects, live, request, objects[k].meta);
    var p := RollUp(objects[k].meta.name, request);
    if p.Some? && |p.value| == |objects[k].meta.name| {
      assert p.value == objects[k].meta.name;
    }
  }

  /** A one-character delimiter: the prefix ends at its first occurrence after the requested prefix. */
  lemma PrefixEndsAtDelimiter(name: string, request: Request)
    requires |request.delimiter| == 1 && StartsWith(name, request.prefix)
    ensures var p, c := RollUp(name, request), request.delimiter[0];
            && (p.Some? ==> |request.prefix| < |p.value| && p.value[|p.value| - 1] == c && p.value <= name
                            && c !in p.value[|request.prefix|..|p.value| - 1])
            && (p.None? <==> c !in name[|request.prefix|..] || (request.prefix == "" && name[0] == c))
  {
    var c, from := request.delimiter[0], |request.prefix|;
    var i := Find(name, request.delimiter, from);
    forall k | from <= k < |name| && name[k] == c
      ensures from <= i <= k
    {
      assert name[k..k + 1] == [c] == request.delimiter;
      FindFirst(name, request.delimiter, from, k);
    }
    if i >= 0 {
      assert name[i..i + 1][0] == c && name[i] == name[from..][i - from];
    }
    if c in name[from..] {
      var j :| 0 <= j < |name[from..]| && name[from..][j] == c;
      assert name[from + j] == c;
    }
  }

  /** What a request asks for: live generations, or all of them, of the names in its range. */
  ghost predicate AskedFor(meta: ObjectMeta, live: map<string, nat>, request: Request) {
    && (request.versions || request.softDeleted || (meta.name in live && live[meta.name] == meta.generation))
    && |request.prefix| <= |meta.name| && meta.name[..|request.prefix|] == request.prefix
    && (meta.name == request.startOffset || Precedes(request.startOffset, meta.name))
    && (request.endOffset != "" ==> Precedes(meta.name, request.endOffset))
    && (request.matchGlob.Some? ==> request.matchGlob.value(meta.name))
  }

  /** Those objects, and no others, are selected: the first offset is included, the last is not. */
  lemma SelectedDecided(blob: Blob, live: map<string, nat>, request: Request)
    ensures Selected(blob, live, request) <==> AskedFor(blob.meta, live, request)
  {
    var name := blob.meta.name;
    LessDecided(name, request.startOffset);
    LessDecided(request.startOffset, name);
    LessDecided(name, request.endOffset);
    LessTotal(name, request.startOffset);
    assert StartsWith(name, request.prefix) <==> |request.prefix| <= |name| && name[..|request.prefix|] == request.prefix;
  }

  /** A listing without a delimiter has exactly the objects that are asked for, and no prefixes. */
  lemma PlainListing(objects: seq<Blob>, live: map<string, nat>, request: Request, meta: ObjectMeta)
    requires request.delimiter == ""
    ensures meta in Items(objects, live, request) <==>
            exists k :: 0 <= k < |objects| && objects[k].meta == meta && AskedFor(meta, live, request)
    ensures forall p :: !RolledUp(objects, live, request, p)
  {
    hide Selected, AskedFor;
    ItemsAre(objects, live, request, meta);
    forall k | 0 <= k < |objects|
      ensures Selected(objects[k], live, request) <==> AskedFor(objects[k].meta, live, request)
    {
      SelectedDecided(objects[k], live, request);
    }
  }

  /** The delimiter is at this place of the name, after the requested prefix. */
  predicate DelimiterAt(name: string, request: Request, i: nat) {
    |request.prefix| <= i && i + |request.delimiter| <= |name| && name[i..i + |request.delimiter|] == request.delimiter
  }

  /**
   A name is rolled up at the first place of the delimiter, of whatever length: into what comes before it
   and the delimiter's first character. It is not if there is no such place, or the name begins with it.
   */
  lemma RollUpDecided(name: string, request: Request)
    requires request.delimiter != ""
    ensures var p := RollUp(name, request);
            && (p.None? <==> (forall i: nat :: !DelimiterAt(name, request, i)) || DelimiterAt(name, request, 0))
            && (p.Some? ==> |p.value| > 1 && p.value <= name && DelimiterAt(name, request, |p.value| - 1)
                            && forall i: nat :: DelimiterAt(name, request, i) ==> i >= |p.value| - 1)
  {
    var from := |request.prefix|;
    forall i: nat | DelimiterAt(name, request, i)
      ensures from <= Find(name, request.delimiter, from) <= i
    {
      FindFirst(name, request.delimiter, from, i);
    }
    var i := Find(name, request.delimiter, from);
    if i >= 0 {
      assert DelimiterAt(name, request, i);
    }
  }
}
