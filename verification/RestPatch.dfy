/**
 The REST patch used for object and bucket metadata (testbench/common.py).
 The reference is MergePatch, section 2 of RFC 7396.
 */
module RestPatch {

  import opened Wrappers

  datatype Json =
    | Null
    | Boolean(b: bool)
    | Number(n: int)
    | Text(s: string)
    | Array(items: seq<Json>)
    | Object(fields: map<string, Json>)

  type Location = seq<string>

  function Lookup(fields: map<string, Json>, key: string): Option<Json> {
    if key in fields then Some(fields[key]) else None
  }

  /** MergePatch of RFC 7396; `None` is an absent target. */
  function MergePatch(target: Option<Json>, patch: Json): Json
    decreases patch
  {
    if patch.Object? then
      var fields := if target.Some? && target.value.Object? then target.value.fields else map[];
      Object(map key | key in fields.Keys + patch.fields.Keys
                       && (key in patch.fields ==> !patch.fields[key].Null?) ::
               if key in patch.fields then MergePatch(Lookup(fields, key), patch.fields[key]) else fields[key])
    else
      patch
  }

  /** Some member present on both sides is an object on exactly one of them, at some depth. */
  ghost predicate Conflicts(target: Option<Json>, patch: Json)
    decreases patch
  {
    && target.Some?
    && !patch.Null?
    && if target.value.Object? && patch.Object?
       then exists key :: key in patch.fields && Conflicts(Lookup(target.value.fields, key), patch.fields[key])
       else target.value.Object? != patch.Object?
  }

  /**
   The loop over the patch's items, in any order: it raises a type mismatch exactly when the two
   documents conflict somewhere, and otherwise returns what MergePatch returns.
   */
  method RestPatch(target: map<string, Json>, patch: Json, path: Location)
    returns (r: Result<map<string, Json>, Location>)
    requires patch.Object?
    ensures r.Failure? <==> Conflicts(Some(Object(target)), patch)
    ensures r.Success? ==> Object(r.value) == MergePatch(Some(Object(target)), patch)
    decreases patch, 1
  {
    hide Merged, MergePatch, Conflicts;
    MergesToObject(target, patch);
    var patched := target;
    var pending := patch.fields.Keys;
    ghost var merged := MergePatch(Some(Object(target)), patch).fields;
    while pending != {}
      invariant pending <= patch.fields.Keys
      invariant forall key :: key in patch.fields && key !in pending ==>
                  !Conflicts(Lookup(target, key), patch.fields[key])
      invariant forall key :: Lookup(patched, key) == Lookup(if key in pending then target else merged, key)
      decreases |pending|
    {
      var key :| key in pending;
      var step := PatchMember(patched, key, patch, path);
      assert Lookup(patched, key) == Lookup(target, key);
      if step.Failure? {
        MemberConflicts(target, patch, key);
        return step;
      }
      patched := step.value;
      pending := pending - {key};
      MergedMember(target, patch, key);
    }
    SameMembers(patched, merged);
    NoMemberConflicts(target, patch);
    return Success(patched);
  }

  lemma MergesToObject(target: map<string, Json>, patch: Json)
    requires patch.Object?
    ensures var merged := MergePatch(Some(Object(target)), patch);
            merged.Object? && forall key :: key !in patch.fields ==> Lookup(merged.fields, key) == Lookup(target, key)
  {
  }

  lemma MemberConflicts(target: map<string, Json>, patch: Json, key: string)
    requires patch.Object? && key in patch.fields && Conflicts(Lookup(target, key), patch.fields[key])
    ensures Conflicts(Some(Object(target)), patch)
  {
  }

  lemma NoMemberConflicts(target: map<string, Json>, patch: Json)
    requires patch.Object? && forall key :: key in patch.fields ==> !Conflicts(Lookup(target, key), patch.fields[key])
    ensures !Conflicts(Some(Object(target)), patch)
  {
  }

  /** One pass of the loop: null deletes, absent members are built from nothing, objects recurse. */
  method PatchMember(patched: map<string, Json>, key: string, patch: Json, path: Location)
    returns (r: Result<map<string, Json>, Location>)
    requires patch.Object? && key in patch.fields
    ensures r.Failure? <==> Conflicts(Lookup(patched, key), patch.fields[key])
    ensures r.Success? ==> forall other :: other != key ==> Lookup(r.value, other) == Lookup(patched, other)
    ensures r.Success? ==> Lookup(r.value, key) == Merged(Lookup(patched, key), patch.fields[key])
    decreases patch, 0
  {
    var subpatch := patch.fields[key];
    if subpatch.Null? {
      return Success(patched - {key});
    }
    var location := path + [key];
    if key !in patched {
      if subpatch.Object? {
        var added := RestPatch(map[], subpatch, location);
        MergeIntoNothing(subpatch);
        if added.Success? {
          return Success(patched[key := Object(added.value)]);
        }
        assert false;
      }
      return Success(patched[key := subpatch]);
    }
    var subtarget := patched[key];
    if subtarget.Object? && subpatch.Object? {
      var inner := RestPatch(subtarget.fields, subpatch, location);
      if inner.Failure? {
        return inner;
      }
      return Success(patched[key := Object(inner.value)]);
    } else if subtarget.Object? == subpatch.Object? {
      return Success(patched[key := subpatch]);
    }
    return Failure(location);
  }

  /** What one member of a patch leaves under its key. */
  function Merged(subtarget: Option<Json>, subpatch: Json): Option<Json> {
    if subpatch.Null? then None else Some(MergePatch(subtarget, subpatch))
  }

  lemma MergedMember(target: map<string, Json>, patch: Json, key: string)
    requires patch.Object? && key in patch.fields
    ensures Lookup(MergePatch(Some(Object(target)), patch).fields, key) ==
            Merged(Lookup(target, key), patch.fields[key])
  {
  }

  /** Equal lookups mean equal objects. */
  lemma SameMembers(a: map<string, Json>, b: map<string, Json>)
    requires forall key :: Lookup(a, key) == Lookup(b, key)
    ensures a == b
  {
    forall key ensures key in a <==> key in b {
      assert Lookup(a, key) == Lookup(b, key);
    }
    forall key | key in a ensures a[key] == b[key] {
      assert Lookup(a, key) == Lookup(b, key);
    }
  }

  /** Nothing conflicts with an empty target, and an absent member merges like an empty object. */
  lemma MergeIntoNothing(patch: Json)
    requires patch.Object?
    ensures !Conflicts(Some(Object(map[])), patch)
    ensures MergePatch(None, patch) == MergePatch(Some(Object(map[])), patch)
  {
  }

  /** A patch that succeeded can be applied again: it is accepted and changes nothing. */
  lemma {:induction false} PatchIsIdempotent(target: Option<Json>, patch: Json)
    ensures MergePatch(Some(MergePatch(target, patch)), patch) == MergePatch(target, patch)
    ensures !Conflicts(Some(MergePatch(target, patch)), patch)
    decreases patch
  {
    if patch.Object? {
      var fields := if target.Some? && target.value.Object? then target.value.fields else map[];
      var once := MergePatch(target, patch).fields;
      var twice := MergePatch(Some(Object(once)), patch).fields;
      forall key
        ensures Lookup(twice, key) == Lookup(once, key)
        ensures key in patch.fields ==> !Conflicts(Lookup(once, key), patch.fields[key])
      {
        if key in patch.fields {
          PatchIsIdempotent(Lookup(fields, key), patch.fields[key]);
          MergedMember(fields, patch, key);
          MergedMember(once, patch, key);
        }
      }
      SameMembers(twice, once);
    }
  }

  // ---- Place by place ----

  /** What a document has at a place, through its objects. */
  function At(document: Option<Json>, place: Location): Option<Json>
    decreases |place|
  {
    if document.None? || place == [] then document
    else if document.value.Object? then At(Lookup(document.value.fields, place[0]), place[1..])
    else None
  }

  /** The patch comes to a member it does not have before it comes to the place. */
  predicate Silent(patch: Json, place: Location)
    decreases |place|
  {
    && patch.Object? && place != []
    && (place[0] in patch.fields ==> Silent(patch.fields[place[0]], place[1..]))
  }

  /**
   A patched document, place by place: where the patch has a value, that value; where it has a null,
   nothing; where it has an object, an object; and where it has nothing to say, what was there.
   */
  lemma {:induction false} PatchedAt(target: Option<Json>, patch: Json, place: Location)
    ensures var said, after := At(Some(patch), place), At(Some(MergePatch(target, patch)), place);
            && (said.Some? && !said.value.Object? && !said.value.Null? ==> after == said)
            && (said == Some(Null) && place != [] ==> after == None)
            && (said.Some? && said.value.Object? ==> after.Some? && after.value.Object?)
            && (Silent(patch, place) ==> after == At(target, place))
    decreases |place|
  {
    if place != [] && patch.Object? {
      var key, fields := place[0], if target.Some? && target.value.Object? then target.value.fields else map[];
      MemberAt(target, patch, key);
      assert At(None, place[1..]) == None;
      assert At(target, place) == At(Lookup(fields, key), place[1..]);
      assert At(Some(MergePatch(target, patch)), place) == At(Lookup(MergePatch(target, patch).fields, key), place[1..]);
      if key in patch.fields {
        PatchedAt(Lookup(fields, key), patch.fields[key], place[1..]);
        assert Silent(patch, place) ==> Silent(patch.fields[key], place[1..]) && !patch.fields[key].Null?;
      }
    }
  }

  lemma MemberAt(target: Option<Json>, patch: Json, key: string)
    requires patch.Object?
    ensures var fields := if target.Some? && target.value.Object? then target.value.fields else map[];
            MergePatch(target, patch).Object? &&
            Lookup(MergePatch(target, patch).fields, key) ==
            if key in patch.fields then Merged(Lookup(fields, key), patch.fields[key]) else Lookup(fields, key)
  {
  }
}
