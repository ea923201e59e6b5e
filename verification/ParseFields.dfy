/**
 The `fields` selector of REST responses: "kind,items(id,name)" becomes the dotted paths
 "kind", "items.name", "items.id" (testbench/common.py).
 */
module ParseFields {

  /** A field selector: a name, whose '/' stand for nesting, and the selectors in its parentheses. */
  datatype Selector = Selector(name: string, children: seq<Selector>)

  const SEPARATORS := {',', '('}

  // ---- The parser's stack of characters ----

  /** Length of the longest suffix of `s` without any of `stops`. */
  function TailLength(s: string, stops: set<char>): (n: nat)
    ensures n <= |s|
    ensures forall k :: |s| - n <= k < |s| ==> s[k] !in stops
    ensures n < |s| ==> s[|s| - n - 1] in stops
  {
    if s == [] || s[|s| - 1] in stops then 0 else 1 + TailLength(s[..|s| - 1], stops)
  }

  function Tail(s: string, stops: set<char>): string {
    s[|s| - TailLength(s, stops)..]
  }

  function Front(s: string, stops: set<char>): string {
    s[..|s| - TailLength(s, stops)]
  }

  /**
   The fields of the innermost open group, rightmost first, and what is below the group.
   Without an open parenthesis the leftmost field is lost.
   */
  function Group(stack: string): (g: (seq<string>, string))
    ensures |g.1| <= |stack|
    decreases |stack|
  {
    var front := Front(stack, SEPARATORS);
    if front == [] then ([], [])
    else
      var below := front[..|front| - 1];
      if front[|front| - 1] == '(' then ([Tail(stack, SEPARATORS)], below)
      else
        var g := Group(below);
        ([Tail(stack, SEPARATORS)] + g.0, g.1)
  }

  function Close(stack: string): string {
    var g := Group(stack);
    Front(g.1, SEPARATORS) + Join(Prefixed(Tail(g.1, SEPARATORS) + ".", g.0))
  }

  function Prefixed(prefix: string, fields: seq<string>): (r: seq<string>)
    ensures |r| == |fields|
    ensures forall k :: 0 <= k < |r| ==> r[k] == prefix + fields[k]
  {
    seq(|fields|, k requires 0 <= k < |fields| => prefix + fields[k])
  }

  function Join(fields: seq<string>): string {
    if fields == [] then []
    else if |fields| == 1 then fields[0]
    else Join(fields[..|fields| - 1]) + "," + fields[|fields| - 1]
  }

  function Split(s: string): (r: seq<string>)
    ensures r != []
    decreases |s|
  {
    var front := Front(s, {','});
    if front == [] then [s] else Split(front[..|front| - 1]) + [Tail(s, {','})]
  }

  function Step(stack: string, c: char): string {
    if c == ' ' then stack
    else if c == ')' then Close(stack)
    else stack + [if c == '/' then '.' else c]
  }

  function Run(stack: string, text: string): string {
    if text == [] then stack else Step(Run(stack, text[..|text| - 1]), text[|text| - 1])
  }

  /** The loop over the characters, then the final split at commas. */
  method ParseFields(fields: string) returns (paths: seq<string>)
    ensures paths == Split(Run([], fields))
  {
    var res: string := [];
    for i := 0 to |fields|
      invariant res == Run([], fields[..i])
    {
      assert fields[..i + 1][..i] == fields[..i];
      var c := fields[i];
      if c != ' ' && c != ')' {
        if c == '/' {
          res := res + ['.'];
        } else {
          res := res + [c];
        }
      } else if c == ')' {
        res := CloseGroup(res);
      }
    }
    assert fields[..|fields|] == fields;
    paths := Split(res);
  }

  /**
   Pop the fields of the innermost group. Each comes back with its characters in the order they
   were popped, that is, reversed.
   */
  method PopChildren(stack: string) returns (childrenFields: seq<string>, res: string)
    ensures Group(stack) == (AllReversed(childrenFields), res)
  {
    hide Group;
    res := stack;
    childrenFields := [];
    var tmpField: string := [];
    var found := false;
    ghost var current := stack;
    assert AllReversed(childrenFields) + Group(stack).0 == Group(stack).0;
    while res != [] && !found
      invariant current == res + Reversed(tmpField)
      invariant forall k :: 0 <= k < |Reversed(tmpField)| ==> Reversed(tmpField)[k] !in SEPARATORS
      invariant if found then Group(stack) == (AllReversed(childrenFields), res) && tmpField == []
                else Group(stack) == (AllReversed(childrenFields) + Group(current).0, Group(current).1)
      decreases |res|
    {
      var top := res[|res| - 1];
      var below := res[..|res| - 1];
      if top != ',' && top != '(' {
        tmpField := tmpField + [top];
        assert res == below + [top];
      } else {
        GroupStep(res, Reversed(tmpField));
        AllReversedStep(childrenFields, tmpField, Group(below).0);
        childrenFields := childrenFields + [tmpField];
        tmpField := [];
        found := top == '(';
        current := below;
      }
      res := below;
    }
    if !found {
      GroupEnd(current);
      assert AllReversed(childrenFields) + [] == AllReversed(childrenFields);
    }
  }

  /** A closing parenthesis: pop the children, pop the parent, push each child under the parent. */
  method CloseGroup(stack: string) returns (res: string)
    ensures res == Close(stack)
  {
    hide Join, Prefixed, AllReversed, Group;
    var childrenFields;
    childrenFields, res := PopChildren(stack);
    ghost var group := Group(stack);
    var parentField: string := [];
    while res != [] && res[|res| - 1] != ',' && res[|res| - 1] != '('
      invariant group.1 == res + Reversed(parentField)
      invariant forall k :: 0 <= k < |Reversed(parentField)| ==> Reversed(parentField)[k] !in SEPARATORS
      decreases |res|
    {
      assert res == res[..|res| - 1] + [res[|res| - 1]];
      parentField := parentField + [res[|res| - 1]];
      res := res[..|res| - 1];
    }
    TailIs(res, Reversed(parentField), SEPARATORS);
    res := PushChildren(res, parentField, childrenFields);
  }

  method PushChildren(base: string, parentField: string, childrenFields: seq<string>) returns (res: string)
    ensures res == base + Join(Prefixed(Reversed(parentField) + ".", AllReversed(childrenFields)))
  {
    res := base;
    ghost var paths := Prefixed(Reversed(parentField) + ".", AllReversed(childrenFields));
    for i := 0 to |childrenFields|
      invariant res == base + Join(paths[..i]) + (if 0 < i < |paths| then "," else "")
    {
      ghost var before := res;
      res := res + Reversed(parentField);
      res := res + ".";
      var field := childrenFields[i];
      while field != []
        invariant res + Reversed(field) == before + paths[i]
        decreases |field|
      {
        res := res + [field[|field| - 1]];
        field := field[..|field| - 1];
      }
      JoinStep(base, paths, i);
      if i < |childrenFields| - 1 {
        res := res + ",";
      }
    }
    assert paths[..|paths|] == paths;
  }

  function Reversed(s: string): string {
    if s == [] then [] else [s[|s| - 1]] + Reversed(s[..|s| - 1])
  }

  function AllReversed(fields: seq<string>): (r: seq<string>)
    ensures |r| == |fields|
    ensures forall k :: 0 <= k < |r| ==> r[k] == Reversed(fields[k])
  {
    seq(|fields|, k requires 0 <= k < |fields| => Reversed(fields[k]))
  }

  /** Where the last segment of a text begins. */
  lemma {:induction false} TailIs(front: string, tail: string, stops: set<char>)
    requires front == [] || front[|front| - 1] in stops
    requires forall k :: 0 <= k < |tail| ==> tail[k] !in stops
    ensures Tail(front + tail, stops) == tail && Front(front + tail, stops) == front
  {
    if tail == [] {
      assert front + tail == front;
    } else {
      TailIs(front, tail[..|tail| - 1], stops);
      assert (front + tail)[..|front + tail| - 1] == front + tail[..|tail| - 1];
    }
  }

  /** One more field of the group, or its open parenthesis. */
  lemma GroupStep(front: string, field: string)
    requires front != [] && front[|front| - 1] in SEPARATORS
    requires forall k :: 0 <= k < |field| ==> field[k] !in SEPARATORS
    ensures var below := front[..|front| - 1];
            Group(front + field) ==
            if front[|front| - 1] == '(' then ([field], below) else ([field] + Group(below).0, Group(below).1)
  {
    TailIs(front, field, SEPARATORS);
  }

  lemma GroupEnd(field: string)
    requires forall k :: 0 <= k < |field| ==> field[k] !in SEPARATORS
    ensures Group(field) == ([], [])
  {
    TailIs([], field, SEPARATORS);
    assert [] + field == field;
  }

  lemma AllReversedStep(fields: seq<string>, field: string, more: seq<string>)
    ensures AllReversed(fields + [field]) == AllReversed(fields) + [Reversed(field)]
    ensures AllReversed(fields + [field]) + more == AllReversed(fields) + ([Reversed(field)] + more)
  {
  }

  lemma JoinStep(base: string, fields: seq<string>, i: nat)
    requires i < |fields|
    ensures base + Join(fields[..i + 1]) ==
            base + Join(fields[..i]) + (if 0 < i then "," else "") + fields[i]
  {
    assert fields[..i + 1][..i] == fields[..i];
  }

  // ---- Printing selectors, and the paths they stand for ----

  function Print(selector: Selector): string {
    selector.name + if selector.children == [] then "" else "(" + PrintAll(selector.children) + ")"
  }

  function PrintAll(selectors: seq<Selector>): string {
    if selectors == [] then []
    else if |selectors| == 1 then Print(selectors[0])
    else PrintAll(selectors[..|selectors| - 1]) + "," + Print(selectors[|selectors| - 1])
  }

  function Squeeze(text: string): string {
    if text == [] then []
    else Squeeze(text[..|text| - 1]) + if text[|text| - 1] == ' ' then [] else [text[|text| - 1]]
  }

  predicate ValidName(name: string) {
    forall k :: 0 <= k < |name| ==> name[k] !in {' ', ',', '(', ')'}
  }

  predicate Valid(selector: Selector) {
    ValidName(selector.name) && forall k :: 0 <= k < |selector.children| ==> Valid(selector.children[k])
  }

  function Dotted(name: string): (r: string)
    ensures |r| == |name|
    ensures forall k :: 0 <= k < |r| ==> r[k] == if name[k] == '/' then '.' else name[k]
  {
    if name == [] then [] else Dotted(name[..|name| - 1]) + [if name[|name| - 1] == '/' then '.' else name[|name| - 1]]
  }

  /** Root-to-leaf dotted paths, in the order the selectors are written. */
  function Paths(selector: Selector): seq<string> {
    if selector.children == [] then [Dotted(selector.name)]
    else Prefixed(Dotted(selector.name) + ".", AllPaths(selector.children))
  }

  function AllPaths(selectors: seq<Selector>): seq<string> {
    if selectors == [] then []
    else AllPaths(selectors[..|selectors| - 1]) + Paths(selectors[|selectors| - 1])
  }

  /** The same paths in the order the parser leaves them: each group reverses its children. */
  function Expand(selector: Selector): (r: seq<string>)
    ensures r != []
  {
    if selector.children == [] then [Dotted(selector.name)]
    else Prefixed(Dotted(selector.name) + ".", Backwards(ExpandAll(selector.children)))
  }

  function ExpandAll(selectors: seq<Selector>): (r: seq<string>)
    ensures selectors != [] ==> r != []
  {
    if selectors == [] then []
    else ExpandAll(selectors[..|selectors| - 1]) + Expand(selectors[|selectors| - 1])
  }

  function Backwards<T>(s: seq<T>): (r: seq<T>)
    ensures |r| == |s|
  {
    if s == [] then [] else [s[|s| - 1]] + Backwards(s[..|s| - 1])
  }

  // ---- The parser inverts printing ----

  lemma RunStep(stack: string, text: string, c: char)
    ensures Run(stack, text + [c]) == Step(Run(stack, text), c)
  {
    assert (text + [c])[..|text|] == text;
  }

  lemma {:induction false} RunAppend(stack: string, text: string, more: string)
    ensures Run(stack, text + more) == Run(Run(stack, text), more)
  {
    if more == [] {
      assert text + more == text;
    } else {
      var init, c := more[..|more| - 1], more[|more| - 1];
      RunAppend(stack, text, init);
      RunStep(stack, text + init, c);
      assert text + init + [c] == text + more;
    }
  }

  /** Spaces anywhere in the text make no difference. */
  lemma {:induction false} SpacesAreIgnored(stack: string, text: string)
    ensures Run(stack, text) == Run(stack, Squeeze(text))
  {
    if text != [] {
      var init, c := text[..|text| - 1], text[|text| - 1];
      SpacesAreIgnored(stack, init);
      if c == ' ' {
        assert Squeeze(text) == Squeeze(init);
      } else {
        RunStep(stack, Squeeze(init), c);
      }
    }
  }

  lemma {:induction false} RunName(stack: string, name: string)
    requires ValidName(name)
    ensures Run(stack, name) == stack + Dotted(name)
  {
    if name == [] {
      assert stack + Dotted(name) == stack;
    } else {
      RunName(stack, name[..|name| - 1]);
      assert name[|name| - 1] !in {' ', ',', '(', ')'};
    }
  }

  /** A field on the stack: no separator in it. */
  predicate Plain(field: string) {
    forall k :: 0 <= k < |field| ==> field[k] !in SEPARATORS
  }

  predicate AllPlain(fields: seq<string>) {
    forall k :: 0 <= k < |fields| ==> Plain(fields[k])
  }

  /** Closing a group that holds the given fields hands them back, last one first. */
  lemma {:induction false} GroupOfJoin(below: string, fields: seq<string>)
    requires fields != [] && AllPlain(fields)
    ensures Group(below + "(" + Join(fields)) == (Backwards(fields), below)
  {
    var init, last := fields[..|fields| - 1], fields[|fields| - 1];
    if init == [] {
      assert below + "(" + Join(fields) == (below + "(") + last;
      TailIs(below + "(", last, SEPARATORS);
      assert (below + "(")[..|below|] == below;
      assert Backwards(fields) == [last] + Backwards(init) == [last];
    } else {
      GroupOfJoin(below, init);
      var front := below + "(" + Join(init) + ",";
      assert below + "(" + Join(fields) == front + last;
      TailIs(front, last, SEPARATORS);
      assert front[..|front| - 1] == below + "(" + Join(init);
    }
  }

  lemma {:induction false} SplitOfJoin(fields: seq<string>)
    requires fields != [] && AllPlain(fields)
    ensures Split(Join(fields)) == fields
  {
    var init, last := fields[..|fields| - 1], fields[|fields| - 1];
    if init == [] {
      assert [] + last == last;
      TailIs([], last, {','});
    } else {
      SplitOfJoin(init);
      var front := Join(init) + ",";
      TailIs(front, last, {','});
      assert front[..|front| - 1] == Join(init);
      assert init + [last] == fields;
    }
  }

  lemma {:induction false} JoinAppend(a: seq<string>, b: seq<string>)
    requires a != [] && b != []
    ensures Join(a + b) == Join(a) + "," + Join(b)
  {
    var init, last := b[..|b| - 1], b[|b| - 1];
    assert (a + b)[..|a + b| - 1] == a + init;
    if init == [] {
      assert a + init == a;
    } else {
      JoinAppend(a, init);
    }
  }

  lemma {:induction false} BackwardsPlain(fields: seq<string>)
    requires AllPlain(fields)
    ensures AllPlain(Backwards(fields))
    ensures multiset(Backwards(fields)) == multiset(fields)
  {
    if fields != [] {
      BackwardsPlain(fields[..|fields| - 1]);
      assert fields == fields[..|fields| - 1] + [fields[|fields| - 1]];
    }
  }

  lemma PrefixedPlain(prefix: string, fields: seq<string>)
    requires Plain(prefix) && AllPlain(fields)
    ensures AllPlain(Prefixed(prefix, fields))
  {
  }

  lemma DottedPlain(name: string)
    requires ValidName(name)
    ensures Plain(Dotted(name)) && Plain(Dotted(name) + ".")
  {
    forall k | 0 <= k < |name| ensures Dotted(name)[k] !in SEPARATORS {
      assert name[k] !in {' ', ',', '(', ')'};
    }
  }

  lemma {:induction false} ExpandPlain(selector: Selector)
    requires Valid(selector)
    ensures AllPlain(Expand(selector))
    decreases selector, 1
  {
    DottedPlain(selector.name);
    if selector.children != [] {
      ExpandAllPlain(selector.children);
      BackwardsPlain(ExpandAll(selector.children));
      PrefixedPlain(Dotted(selector.name) + ".", Backwards(ExpandAll(selector.children)));
    }
  }

  lemma {:induction false} ExpandAllPlain(selectors: seq<Selector>)
    requires forall k :: 0 <= k < |selectors| ==> Valid(selectors[k])
    ensures AllPlain(ExpandAll(selectors))
    decreases selectors, 0
  {
    if selectors != [] {
      ExpandAllPlain(selectors[..|selectors| - 1]);
      ExpandPlain(selectors[|selectors| - 1]);
    }
  }

  /** Where a field may start: at the bottom of the stack or right after a separator. */
  predicate AtFieldStart(stack: string) {
    stack == [] || stack[|stack| - 1] in SEPARATORS
  }

  lemma JoinOne(text: string)
    ensures Join([text]) == text
  {
  }

  /** One printed selector leaves its expanded paths on the stack, joined by commas. */
  lemma {:induction false} RunPrint(stack: string, selector: Selector)
    requires AtFieldStart(stack) && Valid(selector)
    ensures Run(stack, Print(selector)) == stack + Join(Expand(selector))
    decreases selector, 1
  {
    hide Run, Join, ExpandAll, PrintAll, Group, Prefixed;
    var name, children := selector.name, selector.children;
    RunName(stack, name);
    if children == [] {
      assert Print(selector) == name;
      JoinOne(Dotted(name));
    } else {
      var parent := Dotted(name);
      var inner := ExpandAll(children);
      var group := stack + parent + "(";
      RunStep(stack, name, '(');
      RunPrintAll(group, children);
      RunAppend(stack, name + "(", PrintAll(children));
      RunStep(stack, name + "(" + PrintAll(children), ')');
      assert name + "(" + PrintAll(children) + [')'] == Print(selector);
      ExpandAllPlain(children);
      GroupOfJoin(stack + parent, inner);
      DottedPlain(name);
      TailIs(stack, parent, SEPARATORS);
    }
  }

  lemma {:induction false} RunPrintAll(stack: string, selectors: seq<Selector>)
    requires AtFieldStart(stack) && selectors != []
    requires forall k :: 0 <= k < |selectors| ==> Valid(selectors[k])
    ensures Run(stack, PrintAll(selectors)) == stack + Join(ExpandAll(selectors))
    decreases selectors, 0
  {
    var init, last := selectors[..|selectors| - 1], selectors[|selectors| - 1];
    if init == [] {
      RunPrint(stack, last);
      assert ExpandAll(selectors) == Expand(last);
    } else {
      RunPrintAll(stack, init);
      RunPrint(stack + Join(ExpandAll(init)) + ",", last);
      RunNext(stack, PrintAll(init), ExpandAll(init), Print(last), Expand(last));
    }
  }

  lemma RunNext(stack: string, text: string, a: seq<string>, more: string, b: seq<string>)
    requires a != [] && b != []
    requires Run(stack, text) == stack + Join(a)
    requires Run(stack + Join(a) + ",", more) == stack + Join(a) + "," + Join(b)
    ensures Run(stack, text + "," + more) == stack + Join(a + b)
  {
    assert Run(stack, text + ",") == stack + Join(a) + "," by {
      RunStep(stack, text, ',');
    }
    assert Run(stack, text + "," + more) == stack + Join(a) + "," + Join(b) by {
      RunAppend(stack, text + ",", more);
    }
    assert stack + Join(a) + "," + Join(b) == stack + Join(a + b) by {
      JoinAppend(a, b);
      Regroup(stack, Join(a), ",", Join(b));
    }
  }

  lemma Regroup(a: string, b: string, c: string, d: string)
    ensures a + b + c + d == a + (b + c + d)
  {
  }

  lemma {:induction false} PrefixedCount(prefix: string, fields: seq<string>, path: string)
    ensures multiset(Prefixed(prefix, fields))[path] ==
            if prefix <= path then multiset(fields)[path[|prefix|..]] else 0
  {
    if fields != [] {
      var init, last := fields[..|fields| - 1], fields[|fields| - 1];
      PrefixedCount(prefix, init, path);
      assert fields == init + [last];
      assert Prefixed(prefix, fields) == Prefixed(prefix, init) + [prefix + last];
      assert (prefix + last)[|prefix|..] == last;
      if prefix <= path {
        assert path == prefix + path[|prefix|..];
      }
    }
  }

  lemma PrefixedSameMultiset(prefix: string, a: seq<string>, b: seq<string>)
    requires multiset(a) == multiset(b)
    ensures multiset(Prefixed(prefix, a)) == multiset(Prefixed(prefix, b))
  {
    forall path ensures multiset(Prefixed(prefix, a))[path] == multiset(Prefixed(prefix, b))[path] {
      PrefixedCount(prefix, a, path);
      PrefixedCount(prefix, b, path);
    }
  }

  lemma {:induction false} ExpandPermutesPaths(selector: Selector)
    requires Valid(selector)
    ensures multiset(Expand(selector)) == multiset(Paths(selector))
    decreases selector, 1
  {
    if selector.children != [] {
      var inner := ExpandAll(selector.children);
      ExpandAllPermutesPaths(selector.children);
      ExpandAllPlain(selector.children);
      BackwardsPlain(inner);
      PrefixedSameMultiset(Dotted(selector.name) + ".", Backwards(inner), AllPaths(selector.children));
    }
  }

  lemma {:induction false} ExpandAllPermutesPaths(selectors: seq<Selector>)
    requires forall k :: 0 <= k < |selectors| ==> Valid(selectors[k])
    ensures multiset(ExpandAll(selectors)) == multiset(AllPaths(selectors))
    decreases selectors, 0
  {
    if selectors != [] {
      ExpandAllPermutesPaths(selectors[..|selectors| - 1]);
      ExpandPermutesPaths(selectors[|selectors| - 1]);
    }
  }

  /**
   Parsing any spacing of a printed list of selectors gives exactly the root-to-leaf paths,
   with multiplicity; the order is that of `ExpandAll`.
   */
  lemma ParseInvertsPrint(text: string, selectors: seq<Selector>)
    requires selectors != [] && forall k :: 0 <= k < |selectors| ==> Valid(selectors[k])
    requires Squeeze(text) == PrintAll(selectors)
    ensures Split(Run([], text)) == ExpandAll(selectors)
    ensures multiset(Split(Run([], text))) == multiset(AllPaths(selectors))
  {
    SpacesAreIgnored([], text);
    RunPrintAll([], selectors);
    assert [] + Join(ExpandAll(selectors)) == Join(ExpandAll(selectors));
    ExpandAllPlain(selectors);
    SplitOfJoin(ExpandAll(selectors));
    ExpandAllPermutesPaths(selectors);
  }
}
