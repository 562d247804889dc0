/**
 The loader of conf/loader.go on the heap: decoded documents are trees of mutable
 objects, merged in place. Model is the value a tree of objects stands for.
 */
module ConfLoader {
  import opened Wrappers
  import opened ConfTree

  datatype Value = Leaf(tree: Tree) | Child(node: Node)

  class Node {
    var fields: map<string, Value>
    ghost var Model: Document
    ghost var Repr: set<object>

    constructor ()
      ensures Valid() && Model == map[] && fresh(Repr)
    {
      fields, Model := map[], map[];
      Repr := {this};
    }

    ghost predicate Valid()
      reads this, Repr
      decreases Repr
    {
      && this in Repr
      && fields.Keys == Model.Keys
      && (forall key | key in fields :: ValidField(key))
      && (forall j, k | j in fields && k in fields && j != k && fields[j].Child? && fields[k].Child? ::
            fields[j].node.Repr !! fields[k].node.Repr)
    }

    ghost predicate ValidField(key: string)
      requires this in Repr && fields.Keys == Model.Keys && key in fields
      reads this, Repr
      decreases Repr, 0
    {
      match fields[key]
      case Leaf(tree) => !tree.Object? && Model[key] == tree
      case Child(node) =>
        && node in Repr && node.Repr <= Repr && this !in node.Repr
        && node.Valid() && Model[key] == Object(node.Model)
    }
  }

  /** The objects below a field. */
  ghost function Below(node: Node, key: string): set<object>
    requires key in node.fields
    reads node, if node.fields[key].Child? then {node.fields[key].node} else {}
  {
    if node.fields[key].Child? then node.fields[key].node.Repr else {}
  }

  /** The fields of a valid node lie below it, apart from each other. */
  lemma FieldsApart(node: Node, j: string, k: string)
    requires node.Valid() && j in node.fields && k in node.fields && j != k
    ensures Below(node, j) <= node.Repr && Below(node, k) <= node.Repr
    ensures node !in Below(node, j) && Below(node, j) !! Below(node, k)
  {
    assert node.ValidField(j) && node.ValidField(k);
  }

  /** What the other fields hold is apart from an object at a key. */
  ghost predicate Apart(node: Node, j: string, touched: set<object>)
    requires j in node.fields && j in node.Model
    reads node, if node.fields[j].Child? then {node.fields[j].node} + node.fields[j].node.Repr else {}
  {
    match node.fields[j]
    case Leaf(tree) => !tree.Object? && node.Model[j] == tree
    case Child(child) =>
      && child in child.Repr && child.Repr !! touched && child.Repr <= node.Repr && node !in child.Repr
      && child.Valid() && node.Model[j] == Object(child.Model)
  }

  lemma OthersApart(node: Node, key: string)
    requires node.Valid() && key in node.fields
    ensures forall j | j in node.fields && j != key :: Apart(node, j, Below(node, key))
  {
    forall j | j in node.fields && j != key ensures Apart(node, j, Below(node, key)) {
      assert node.ValidField(j);
      FieldsApart(node, j, key);
      if node.fields[j].Child? {
        assert node.fields[j].node.Valid();
      }
    }
  }

  /** Merges one object field into another in place. */
  method MergeChild(base: Node, overlay: Node, key: string)
    requires base.Valid() && key in base.fields && base.fields[key].Child?
    requires overlay.Valid() && overlay.Repr !! base.Repr
    modifies base, base.fields[key].node.Repr
    ensures base.Valid() && base.fields == old(base.fields)
    ensures base.Model == old(base.Model)[key := Overlay(Some(old(base.Model[key])), Object(old(overlay.Model)))]
    ensures base.Repr <= old(base.Repr) + old(overlay.Repr)
    ensures forall j | j in base.fields && j != key :: Below(base, j) == old(Below(base, j))
    decreases overlay.Repr, 3
  {
    var child := base.fields[key].node;
    ghost var touched := child.Repr;
    assert base.ValidField(key);
    OthersApart(base, key);
    MergeTree(child, overlay);
    forall j | j in base.fields && j != key
      ensures Apart(base, j, child.Repr) && Below(base, j) == old(Below(base, j))
    {
      assert old(Apart(base, j, touched));
    }
    Relink(base, key, Object(child.Model));
  }

  /** What a field stands for, when what it holds is in order and apart from its node. */
  ghost predicate Holds(node: Node, key: string, tree: Tree)
    requires key in node.fields
    reads node, if node.fields[key].Child? then {node.fields[key].node} + node.fields[key].node.Repr else {}
  {
    match node.fields[key]
    case Leaf(leaf) => !leaf.Object? && tree == leaf
    case Child(child) => child in child.Repr && child.Valid() && node !in child.Repr && tree == Object(child.Model)
  }

  /** Brings a node up to date with the one field that changed. */
  ghost method Relink(base: Node, key: string, tree: Tree)
    requires base in base.Repr && key in base.fields && base.fields.Keys == base.Model.Keys + {key}
    requires Holds(base, key, tree)
    requires forall j | j in base.fields && j != key :: Apart(base, j, Below(base, key))
    requires forall j, k | j in base.fields && k in base.fields && j != k && j != key && k != key ::
               Below(base, j) !! Below(base, k)
    modifies base`Repr, base`Model
    ensures base.Valid()
    ensures base.Model == old(base.Model)[key := tree]
    ensures base.Repr == old(base.Repr) + Below(base, key)
    ensures forall j | j in base.fields :: Below(base, j) == old(Below(base, j))
  {
    ghost var changed := Below(base, key);
    base.Repr := base.Repr + changed;
    base.Model := base.Model[key := tree];
    assert base.ValidField(key) by {
      assert old(Holds(base, key, tree));
    }
    forall j | j in base.fields && j != key
      ensures base.ValidField(j) && Below(base, j) == old(Below(base, j)) && Below(base, j) !! changed
    {
      assert old(Apart(base, j, changed));
    }
    hide Apart, Holds, Node.ValidField;
  }

  /** Puts the overlay's own value under the key; an object is shared, not copied. */
  method Graft(base: Node, overlay: Node, key: string)
    requires base.Valid() && overlay.Valid() && key in overlay.fields
    requires overlay !in base.Repr && Below(overlay, key) !! base.Repr
    modifies base
    ensures base.Valid() && base.fields == old(base.fields)[key := overlay.fields[key]]
    ensures base.Model == old(base.Model)[key := overlay.Model[key]]
    ensures base.Repr == old(base.Repr) + Below(overlay, key)
    ensures forall j | j in old(base.fields) && j != key :: Below(base, j) == old(Below(base, j))
  {
    assert overlay.ValidField(key) && base !in Below(overlay, key);
    ghost var grafted := Below(overlay, key);
    if overlay.fields[key].Child? {
      assert overlay.fields[key].node.Valid();
    }
    forall j | j in base.fields && j != key ensures Apart(base, j, grafted) {
      assert base.ValidField(j);
      if base.fields[j].Child? {
        assert base.fields[j].node.Valid();
      }
    }
    base.fields := base.fields[key := overlay.fields[key]];
    forall j | j in base.fields && j != key
      ensures Apart(base, j, grafted) && Below(base, j) == old(Below(base, j))
    {
      assert old(Apart(base, j, grafted));
    }
    Relink(base, key, overlay.Model[key]);
  }

  /** Merges one field: objects merge in place, any other value replaces what is beneath it. */
  method MergeField(base: Node, overlay: Node, key: string)
    requires base.Valid() && overlay.Valid() && key in overlay.fields
    requires overlay !in base.Repr && Below(overlay, key) !! base.Repr
    modifies base, if key in base.fields then Below(base, key) else {}
    ensures base.Valid()
    ensures base.Model == old(base.Model)[key := Overlay(Field(old(base.Model), key), old(overlay.Model[key]))]
    ensures base.Repr <= old(base.Repr) + old(Below(overlay, key))
    ensures forall j | j in old(base.fields) && j != key ::
              j in base.fields && base.fields[j] == old(base.fields[j]) && Below(base, j) == old(Below(base, j))
    ensures base.fields.Keys == old(base.fields).Keys + {key}
    decreases overlay.Repr, 0
  {
    assert overlay.ValidField(key);
    if key in base.fields && base.fields[key].Child? && overlay.fields[key].Child? {
      assert base.ValidField(key);
      MergeChild(base, overlay.fields[key].node, key);
    } else {
      if key in base.fields {
        assert base.ValidField(key);
      }
      Graft(base, overlay, key);
    }
  }

  /** The part of a document that a loop over its keys has visited. */
  ghost function Visited(document: Document, rest: set<string>): Document {
    map key | key in document && key !in rest :: document[key]
  }

  lemma VisitOne(base: Document, overlay: Document, rest: set<string>, key: string)
    requires key in rest && key in overlay
    ensures Field(Merge(base, Visited(overlay, rest)), key) == Field(base, key)
    ensures Merge(base, Visited(overlay, rest - {key}))
         == Merge(base, Visited(overlay, rest))[key := Overlay(Field(base, key), overlay[key])]
  {
    var before, after := Merge(base, Visited(overlay, rest)), Merge(base, Visited(overlay, rest - {key}));
    forall k
      ensures Field(after, k) ==
              if k == key then Some(Overlay(Field(base, key), overlay[key])) else Field(before, k)
    {
      MergeAt(base, Visited(overlay, rest), k);
      MergeAt(base, Visited(overlay, rest - {key}), k);
    }
    SameFields(after, before[key := Overlay(Field(base, key), overlay[key])]);
  }

  lemma SameFields(a: Document, b: Document)
    requires forall key :: Field(a, key) == Field(b, key)
    ensures a == b
  {
    forall key ensures key in a <==> key in b {
      assert Field(a, key) == Field(b, key);
    }
    forall key | key in a ensures a[key] == b[key] {
      assert Field(a, key) == Field(b, key);
    }
  }

  /** The fields still to be merged: the overlay's are outside the base, the base's are its own from before. */
  ghost predicate Pending(base: Node, overlay: Node, rest: set<string>, region: set<object>)
    requires rest <= overlay.fields.Keys
    reads base, overlay, set k | k in base.fields && base.fields[k].Child? :: base.fields[k].node
    reads set k | k in overlay.fields && overlay.fields[k].Child? :: overlay.fields[k].node
  {
    && overlay !in base.Repr
    && (forall k | k in rest :: Below(overlay, k) !! base.Repr)
    && (forall k | k in rest && k in base.fields :: Below(base, k) <= region)
  }

  /** One turn of the loop of MergeTree. */
  method MergeNext(base: Node, overlay: Node, rest: set<string>, key: string, ghost region: set<object>)
    requires base.Valid() && overlay.Valid() && key in rest && rest <= overlay.fields.Keys
    requires region !! overlay.Repr && base in region && Pending(base, overlay, rest, region)
    modifies region
    ensures base.Valid() && Pending(base, overlay, rest - {key}, region)
    ensures base.Model == old(base.Model)[key := Overlay(Field(old(base.Model), key), overlay.Model[key])]
    ensures base.Repr <= old(base.Repr) + overlay.Repr
    decreases overlay.Repr, 1
  {
    forall k | k in rest && k != key ensures Below(overlay, k) !! Below(overlay, key) {
      FieldsApart(overlay, k, key);
    }
    FieldsBelow(overlay);
    MergeField(base, overlay, key);
  }

  method MergeTree(base: Node, overlay: Node)
    requires base.Valid() && overlay.Valid() && base.Repr !! overlay.Repr
    modifies base.Repr
    ensures base.Valid() && base.Model == Merge(old(base.Model), old(overlay.Model))
    ensures base.Repr <= old(base.Repr) + old(overlay.Repr)
    decreases overlay.Repr, 2
  {
    var rest := overlay.fields.Keys;
    MergeNothing(base.Model, overlay.Model);
    FieldsBelow(base);
    FieldsBelow(overlay);
    while rest != {}
      invariant rest <= overlay.fields.Keys
      invariant base.Valid() && base.Repr <= old(base.Repr) + overlay.Repr
      invariant base.Model == Merge(old(base.Model), Visited(overlay.Model, rest))
      invariant Pending(base, overlay, rest, old(base.Repr))
      decreases rest
    {
      var key :| key in rest;
      VisitOne(old(base.Model), overlay.Model, rest, key);
      MergeNext(base, overlay, rest, key, old(base.Repr));
      rest := rest - {key};
    }
    assert Visited(overlay.Model, {}) == overlay.Model;
  }

  lemma MergeNothing(base: Document, overlay: Document)
    ensures Merge(base, Visited(overlay, overlay.Keys)) == base
  {
    forall key ensures Field(Merge(base, Visited(overlay, overlay.Keys)), key) == Field(base, key) {
      MergeAt(base, Visited(overlay, overlay.Keys), key);
    }
    SameFields(Merge(base, Visited(overlay, overlay.Keys)), base);
  }

  lemma FieldsBelow(node: Node)
    requires node.Valid()
    ensures forall k | k in node.fields :: Below(node, k) <= node.Repr && node !in Below(node, k)
  {
    forall k | k in node.fields ensures Below(node, k) <= node.Repr && node !in Below(node, k) {
      assert node.ValidField(k);
    }
  }

  // ---------------------------------------------------------------- lookup

  /** The tree a value stands for. */
  ghost function TreeOf(value: Value): Tree
    reads if value.Child? then {value.node} else {}
  {
    match value
    case Leaf(tree) => tree
    case Child(node) => Object(node.Model)
  }

  /** Cutting a path at its first dot. */
  lemma {:induction false} SegmentsCut(path: string, index: nat)
    requires index <= |path| && '.' !in path[..index] && (index < |path| ==> path[index] == '.')
    ensures Segments(path) == [path[..index]] + if index == |path| then [] else Segments(path[index + 1..])
  {
    if index > 0 {
      forall k | 0 <= k < index ensures path[k] != '.' {
        assert path[k] in path[..index];
      }
      var rest, cut := path[1..], path[1..][..index - 1];
      forall k | 0 <= k < |cut| ensures cut[k] != '.' {
        assert cut[k] == path[k + 1];
      }
      assert path[..index] == [path[0]] + cut;
      SegmentsCut(rest, index - 1);
      if index < |path| {
        assert rest[index..] == path[index + 1..];
      }
    }
  }

  lemma SegmentsCutAt(path: string, start: nat, index: nat)
    requires start <= index <= |path| && '.' !in path[start..index] && (index < |path| ==> path[index] == '.')
    ensures Segments(path[start..])
         == [path[start..index]] + if index == |path| then [] else Segments(path[index + 1..])
  {
    var rest := path[start..];
    assert rest[..index - start] == path[start..index];
    if index < |path| {
      assert rest[index - start + 1..] == path[index + 1..];
    }
    SegmentsCut(rest, index - start);
  }

  /** The segments before start are cut, and no dot lies between start and index. */
  ghost predicate CutUpTo(path: string, segments: seq<string>, start: nat, index: nat) {
    && start <= index <= |path| && '.' !in path[start..index]
    && Segments(path) == segments + Segments(path[start..])
  }

  lemma CutAtDot(path: string, segments: seq<string>, start: nat, index: nat)
    requires CutUpTo(path, segments, start, index) && index < |path| && path[index] == '.'
    ensures CutUpTo(path, segments + [path[start..index]], index + 1, index + 1)
  {
    SegmentsCutAt(path, start, index);
    hide Segments;
    Rejoin(segments, [path[start..index]], Segments(path[index + 1..]));
  }

  lemma Rejoin(a: seq<string>, b: seq<string>, c: seq<string>)
    ensures a + (b + c) == a + b + c
  {
  }

  lemma CutAtEnd(path: string, segments: seq<string>, start: nat)
    requires CutUpTo(path, segments, start, |path|)
    ensures segments + [path[start..|path|]] == Segments(path)
  {
    SegmentsCutAt(path, start, |path|);
    hide Segments;
    assert [path[start..|path|]] + [] == [path[start..|path|]];
  }

  lemma CutOnward(path: string, segments: seq<string>, start: nat, index: nat)
    requires CutUpTo(path, segments, start, index) && index < |path| && path[index] != '.'
    ensures CutUpTo(path, segments, start, index + 1)
  {
    hide Segments;
    assert path[start..index + 1] == path[start..index] + [path[index]];
  }

  method SplitPath(path: string) returns (segments: seq<string>)
    ensures segments == Segments(path)
  {
    segments := [];
    var start := 0;
    assert path[0..] == path;
    for index := 0 to |path| + 1
      invariant start <= index
      invariant index <= |path| ==> CutUpTo(path, segments, start, index)
      invariant index == |path| + 1 ==> segments == Segments(path)
    {
      hide CutUpTo, Segments;
      if index == |path| {
        CutAtEnd(path, segments, start);
      } else if path[index] == '.' {
        CutAtDot(path, segments, start, index);
      } else {
        CutOnward(path, segments, start, index);
      }
      if index == |path| || path[index] == '.' {
        segments := segments + [path[start..index]];
        start := index + 1;
      }
    }
  }

  /** Walks the objects along the segments of the path and renders the scalar found at its end. */
  method DocumentValue(document: Node, path: string) returns (r: Option<string>)
    requires document.Valid()
    ensures r == Answer(document.Model, Segments(path))
    ensures var found := At(Object(document.Model), Segments(path));
            && (found.Some? && found.value.Text? ==> r == Some(found.value.text))
            && (found.Some? && found.value.Number? ==> r == Some(found.value.digits))
            && (found == Some(Bool(true)) ==> r == Some("true"))
            && (found == Some(Bool(false)) ==> r == Some("false"))
            && (found.None? || found.value.Null? || found.value.List? || found.value.Object? ==> r == None)
  {
    var current := Child(document);
    var segments := SplitPath(path);
    for i := 0 to |segments|
      invariant current.Child? ==> current.node.Valid()
      invariant current.Leaf? ==> !current.tree.Object?
      invariant At(Object(document.Model), segments) == At(TreeOf(current), segments[i..])
    {
      assert segments[i..][1..] == segments[i + 1..];
      if current.Leaf? {
        return None;
      }
      if segments[i] !in current.node.fields {
        return None;
      }
      assert current.node.ValidField(segments[i]);
      current := current.node.fields[segments[i]];
    }
    match current {
      case Leaf(Text(text)) => return Some(text);
      case Leaf(Number(digits)) => return Some(digits);
      case Leaf(Bool(value)) => return Some(if value then "true" else "false");
      case _ => return None;
    }
  }

  // ---------------------------------------------------------------- the fold of Load

  /** Searches the sources newest first; the root schema key is never found. */
  ghost function LoadedAnswer(documents: seq<Document>, path: seq<string>): Option<string>
    requires path != []
  {
    if path[0] == "$schema" then None else Layered(documents, path)
  }

  lemma LoadedLookup(documents: seq<Document>, path: seq<string>)
    requires path != []
    ensures Answer(Folded(documents) - {"$schema"}, path) == LoadedAnswer(documents, path)
  {
    LayeredLookup(documents, path);
  }

  datatype ReadError = NotFound | Unreadable | Malformed

  /** A document source: what reading and decoding it gives. */
  datatype Source<T> = Source(optional: bool, content: Result<T, ReadError>)

  /** The documents that take part, or the first error that is not an optional file's absence. */
  ghost function Collected(sources: seq<Source<Document>>): Result<seq<Document>, ReadError> {
    if sources == [] then Ok([])
    else
      var before, last := Collected(sources[..|sources| - 1]), sources[|sources| - 1];
      if before.Err? then before
      else if last.content.Ok? then Ok(before.value + [last.content.value])
      else if last.optional && last.content.error == NotFound then before
      else Err(last.content.error)
  }

  lemma {:induction false} CollectedError(sources: seq<Source<Document>>, n: nat)
    requires n <= |sources| && Collected(sources[..n]).Err?
    ensures Collected(sources) == Collected(sources[..n])
  {
    if n < |sources| {
      assert sources[..|sources| - 1][..n] == sources[..n];
      CollectedError(sources[..|sources| - 1], n);
    } else {
      assert sources[..n] == sources;
    }
  }

  /** Reading the source stops the load. */
  predicate Stops(source: Source<Document>) {
    source.content.Err? && !(source.optional && source.content.error == NotFound)
  }

  /** The load reports the first source that stops it, and without one takes every readable document, in order. */
  lemma {:induction false} CollectedExactly(sources: seq<Source<Document>>)
    ensures Collected(sources).Err? <==> exists i :: 0 <= i < |sources| && Stops(sources[i])
    ensures forall i | 0 <= i < |sources| && Stops(sources[i]) && (forall j | 0 <= j < i :: !Stops(sources[j])) ::
              Collected(sources) == Err(sources[i].content.error)
  {
    if sources != [] {
      var front, last := sources[..|sources| - 1], sources[|sources| - 1];
      CollectedExactly(front);
      assert forall i | 0 <= i < |front| :: front[i] == sources[i];
      if i :| 0 <= i < |sources| && Stops(sources[i]) && i < |front| {
        assert Stops(front[i]);
      }
    }
  }

  lemma {:induction false} CollectedInOrder(a: seq<Source<Document>>, b: seq<Source<Document>>)
    requires Collected(a).Ok?
    ensures Collected(a + b).Ok? <==> Collected(b).Ok?
    ensures Collected(b).Ok? ==> Collected(a + b).value == Collected(a).value + Collected(b).value
  {
    if b == [] {
      assert a + b == a;
    } else {
      assert (a + b)[..|a + b| - 1] == a + b[..|b| - 1];
      CollectedInOrder(a, b[..|b| - 1]);
    }
  }

  /** What one source contributes. */
  lemma CollectedOne(source: Source<Document>)
    ensures source.content.Ok? ==> Collected([source]) == Ok([source.content.value])
    ensures source.content.Err? && !Stops(source) ==> Collected([source]) == Ok([])
    ensures Stops(source) ==> Collected([source]) == Err(source.content.error)
  {
    assert [source][..0] == [] && Collected([]) == Ok([]);
    if source.content.Ok? {
      var none: seq<Document> := [];
      assert none + [source.content.value] == [source.content.value];
    }
  }

  ghost function ModelOf(source: Source<Node>): Source<Document>
    reads if source.content.Ok? then {source.content.value} else {}
  {
    Source(source.optional,
           if source.content.Ok? then Ok(source.content.value.Model) else Err(source.content.error))
  }

  /** The objects a decoded source is made of. */
  ghost function Region(source: Source<Node>): set<object>
    reads if source.content.Ok? then {source.content.value} else {}
  {
    if source.content.Ok? then source.content.value.Repr else {}
  }

  ghost function Models(sources: seq<Source<Node>>): (r: seq<Source<Document>>)
    reads set i | 0 <= i < |sources| && sources[i].content.Ok? :: sources[i].content.value
    ensures |r| == |sources| && forall i | 0 <= i < |sources| :: r[i] == ModelOf(sources[i])
  {
    if sources == [] then [] else Models(sources[..|sources| - 1]) + [ModelOf(sources[|sources| - 1])]
  }

  ghost function Regions(sources: seq<Source<Node>>): (r: set<object>)
    reads set i | 0 <= i < |sources| && sources[i].content.Ok? :: sources[i].content.value
    ensures forall i | 0 <= i < |sources| :: Region(sources[i]) <= r
  {
    if sources == [] then {} else Regions(sources[..|sources| - 1]) + Region(sources[|sources| - 1])
  }

  /** The sources still to be read: valid, apart from each other and from what is merged so far. */
  ghost predicate Remaining(merged: Node, sources: seq<Source<Node>>, i: nat, models: seq<Source<Document>>)
    requires |models| == |sources|
    reads merged, set k | 0 <= k < |sources| && sources[k].content.Ok? :: sources[k].content.value
    reads set k, o | 0 <= k < |sources| && sources[k].content.Ok? && o in sources[k].content.value.Repr :: o
  {
    && (forall k | i <= k < |sources| ::
          && Region(sources[k]) !! merged.Repr
          && (sources[k].content.Ok? ==> sources[k].content.value.Valid())
          && ModelOf(sources[k]) == models[k])
    && (forall j, k | i <= j < k < |sources| :: Region(sources[j]) !! Region(sources[k]))
  }

  /** Overlays the document of the next source. */
  method MergeSource(merged: Node, sources: seq<Source<Node>>, i: nat, ghost models: seq<Source<Document>>)
    requires i < |sources| == |models| && sources[i].content.Ok?
    requires merged.Valid() && Remaining(merged, sources, i, models)
    modifies merged.Repr
    ensures merged.Valid() && Remaining(merged, sources, i + 1, models)
    ensures models[i].content.Ok? && merged.Model == Merge(old(merged.Model), models[i].content.value)
    ensures merged.Repr <= old(merged.Repr) + old(Region(sources[i]))
  {
    forall k | i < k < |sources| && sources[k].content.Ok?
      ensures sources[k].content.value in Region(sources[k])
    {
      assert sources[k].content.value.Valid();
    }
    MergeTree(merged, sources[i].content.value);
    forall k | i < k < |sources|
      ensures Region(sources[k]) == old(Region(sources[k])) && ModelOf(sources[k]) == old(ModelOf(sources[k]))
      ensures sources[k].content.Ok? ==> sources[k].content.value.Valid()
    {
      assert old(Region(sources[k])) !! old(merged.Repr);
    }
  }

  /**
   Reads the sources in order and overlays them on an empty document. Each source
   decodes to objects of its own, which the merge takes over.
   */
  method Load(sources: seq<Source<Node>>) returns (r: Result<Node, ReadError>)
    requires forall i | 0 <= i < |sources| && sources[i].content.Ok? :: sources[i].content.value.Valid()
    requires forall i, j | 0 <= i < j < |sources| :: Region(sources[i]) !! Region(sources[j])
    modifies Regions(sources)
    ensures r.Ok? <==> Collected(old(Models(sources))).Ok?
    ensures r.Ok? ==>
              && r.value.Valid()
              && r.value.Model == Folded(Collected(old(Models(sources))).value) - {"$schema"}
    ensures r.Err? ==> Collected(old(Models(sources))) == Err(r.error)
  {
    ghost var models := Models(sources);
    ghost var regions := Regions(sources);
    var merged := new Node();
    for i := 0 to |sources|
      invariant merged.Valid() && fresh(merged.Repr - regions)
      invariant Remaining(merged, sources, i, models)
      invariant forall k | i <= k < |sources| :: Region(sources[k]) <= regions
      invariant Collected(models[..i]).Ok? && merged.Model == Folded(Collected(models[..i]).value)
    {
      CollectedNext(models, i);
      if sources[i].content.Err? {
        if !(sources[i].optional && sources[i].content.error == NotFound) {
          return Err(sources[i].content.error);
        }
      } else {
        MergeSource(merged, sources, i, models);
      }
    }
    assert models[..|sources|] == models;
    Discard(merged, "$schema");
    return Ok(merged);
  }

  method Discard(node: Node, key: string)
    requires node.Valid()
    modifies node
    ensures node.Valid() && node.Model == old(node.Model) - {key}
  {
    forall k | k in node.fields ensures Apart(node, k, {}) {
      assert node.ValidField(k);
      if node.fields[k].Child? {
        assert node.fields[k].node.Valid();
      }
    }
    node.fields := node.fields - {key};
    node.Model := node.Model - {key};
    forall k | k in node.fields ensures node.ValidField(k) {
      assert old(Apart(node, k, {}));
    }
  }

  /** How one more source changes what is collected and folded. */
  lemma CollectedNext(models: seq<Source<Document>>, i: nat)
    requires i < |models| && Collected(models[..i]).Ok?
    ensures var content := models[i].content;
            if content.Ok? then
              && Collected(models[..i + 1]).Ok?
              && Folded(Collected(models[..i + 1]).value) == Merge(Folded(Collected(models[..i]).value), content.value)
            else if models[i].optional && content.error == NotFound then
              Collected(models[..i + 1]) == Collected(models[..i])
            else Collected(models) == Err(content.error)
  {
    assert models[..i + 1][..i] == models[..i];
    if models[i].content.Ok? {
      var before := Collected(models[..i]).value;
      assert (before + [models[i].content.value])[..|before|] == before;
    } else if !(models[i].optional && models[i].content.error == NotFound) {
      CollectedError(models, i + 1);
    }
  }

  /** What a placeholder finds in the sources themselves: the last readable document that decides its path. */
  method LookUp(sources: seq<Source<Node>>, path: string) returns (r: Result<Option<string>, ReadError>)
    requires forall i | 0 <= i < |sources| && sources[i].content.Ok? :: sources[i].content.value.Valid()
    requires forall i, j | 0 <= i < j < |sources| :: Region(sources[i]) !! Region(sources[j])
    modifies Regions(sources)
    ensures r == match Collected(old(Models(sources)))
                 case Ok(documents) => Ok(LoadedAnswer(documents, Segments(path)))
                 case Err(error) => Err(error)
  {
    var loaded := Load(sources);
    match loaded {
      case Err(error) => r := Err(error);
      case Ok(document) =>
        var found := DocumentValue(document, path);
        LoadedLookup(Collected(old(Models(sources))).value, Segments(path));
        r := Ok(found);
    }
  }
}
