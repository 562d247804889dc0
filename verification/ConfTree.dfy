/**
 The documents of conf/loader.go: JSON trees, the overlay of one on another, and
 lookup by dotted path.
 */
module ConfTree {
  import opened Wrappers

  datatype Tree =
    | Null
    | Bool(value: bool)
    | Number(digits: string)
    | Text(text: string)
    | List(items: seq<Tree>)
    | Object(fields: map<string, Tree>)

  type Document = map<string, Tree>

  function Field(document: Document, key: string): Option<Tree> {
    if key in document then Some(document[key]) else None
  }

  // ---------------------------------------------------------------- overlay

  /** Objects merge deeply; any other value replaces what is beneath it. */
  function Overlay(base: Option<Tree>, overlay: Tree): Tree
    decreases overlay
  {
    if base.Some? && base.value.Object? && overlay.Object? then
      Object(map key | key in base.value.fields.Keys + overlay.fields.Keys ::
               key := if key in overlay.fields
                      then Overlay(Field(base.value.fields, key), overlay.fields[key])
                      else base.value.fields[key])
    else overlay
  }

  function Merge(base: Document, overlay: Document): Document {
    Overlay(Some(Object(base)), Object(overlay)).fields
  }

  lemma MergeAt(base: Document, overlay: Document, key: string)
    ensures Field(Merge(base, overlay), key)
         == if key in overlay then Some(Overlay(Field(base, key), overlay[key])) else Field(base, key)
  {
  }

  lemma OverlayObjects(base: Document, overlay: Document)
    ensures Overlay(Some(Object(base)), Object(overlay)) == Object(Merge(base, overlay))
  {
  }

  /** The documents overlaid in order, from an empty one. */
  function Folded(documents: seq<Document>): Document {
    if documents == [] then map[]
    else Merge(Folded(documents[..|documents| - 1]), documents[|documents| - 1])
  }

  // ---------------------------------------------------------------- lookup

  /** The subtree at a path. */
  function At(tree: Tree, path: seq<string>): Option<Tree>
    decreases |path|
  {
    if path == [] then Some(tree)
    else if tree.Object? && path[0] in tree.fields then At(tree.fields[path[0]], path[1..])
    else None
  }

  /** Only scalars can be embedded in a string. */
  function Rendered(tree: Option<Tree>): Option<string> {
    match tree
    case Some(Text(text)) => Some(text)
    case Some(Number(digits)) => Some(digits)
    case Some(Bool(value)) => Some(if value then "true" else "false")
    case _ => None
  }

  function Answer(document: Document, path: seq<string>): Option<string> {
    Rendered(At(Object(document), path))
  }

  /** The tree has a value at the path, or something other than an object at a proper prefix of it. */
  predicate Decides(tree: Tree, path: seq<string>)
    decreases |path|
  {
    || path == []
    || !tree.Object?
    || (path[0] in tree.fields && Decides(tree.fields[path[0]], path[1..]))
  }

  /** Searches the documents newest first for one that decides the path. */
  function Layered(documents: seq<Document>, path: seq<string>): Option<string> {
    if documents == [] then None
    else
      var last := |documents| - 1;
      if Decides(Object(documents[last]), path) then Answer(documents[last], path)
      else Layered(documents[..last], path)
  }

  lemma {:induction false} OverlayDecides(base: Option<Tree>, overlay: Tree, path: seq<string>)
    requires Decides(overlay, path)
    ensures Rendered(At(Overlay(base, overlay), path)) == Rendered(At(overlay, path))
    decreases |path|
  {
    if path != [] && overlay.Object? && base.Some? && base.value.Object? {
      OverlayObjects(base.value.fields, overlay.fields);
      MergeAt(base.value.fields, overlay.fields, path[0]);
      OverlayDecides(Field(base.value.fields, path[0]), overlay.fields[path[0]], path[1..]);
    }
  }

  /** The subtrees met on the way along the path, each a field of the one before. */
  ghost predicate Trail(tree: Tree, path: seq<string>, trail: seq<Tree>) {
    && |trail| == |path| + 1 && trail[0] == tree
    && forall i | 0 <= i < |path| ::
         trail[i].Object? && path[i] in trail[i].fields && trail[i + 1] == trail[i].fields[path[i]]
  }

  /** The value at a path is the one its segments lead to, object by object. */
  lemma {:induction false} AtExactly(tree: Tree, path: seq<string>, found: Tree)
    ensures At(tree, path) == Some(found) <==> exists trail :: Trail(tree, path, trail) && trail[|path|] == found
    decreases |path|
  {
    if path == [] {
      assert Trail(tree, path, [tree]);
    } else if tree.Object? && path[0] in tree.fields {
      var next := tree.fields[path[0]];
      AtExactly(next, path[1..], found);
      if trail :| Trail(next, path[1..], trail) && trail[|path| - 1] == found {
        TrailFrom(tree, path, trail);
        assert ([tree] + trail)[|path|] == found;
      }
      if trail :| Trail(tree, path, trail) && trail[|path|] == found {
        TrailRest(tree, path, trail);
      }
    }
  }

  lemma TrailFrom(tree: Tree, path: seq<string>, trail: seq<Tree>)
    requires path != [] && tree.Object? && path[0] in tree.fields && Trail(tree.fields[path[0]], path[1..], trail)
    ensures Trail(tree, path, [tree] + trail)
  {
    var longer := [tree] + trail;
    forall i | 0 <= i < |path|
      ensures longer[i].Object? && path[i] in longer[i].fields && longer[i + 1] == longer[i].fields[path[i]]
    {
      assert i > 0 ==> path[1..][i - 1] == path[i];
    }
  }

  lemma TrailRest(tree: Tree, path: seq<string>, trail: seq<Tree>)
    requires path != [] && Trail(tree, path, trail)
    ensures tree.Object? && path[0] in tree.fields && Trail(tree.fields[path[0]], path[1..], trail[1..])
  {
    assert trail[0] == tree && trail[1] == tree.fields[path[0]];
    forall i | 0 <= i < |path[1..]|
      ensures trail[1..][i].Object? && path[1..][i] in trail[1..][i].fields
      ensures trail[1..][i + 1] == trail[1..][i].fields[path[1..][i]]
    {
      assert trail[i + 1].Object?;
    }
  }

  /** A value that is not an object replaces what is beneath it, whatever that is; lists are not joined. */
  lemma {:induction false} OtherValuesReplace(base: Option<Tree>, overlay: Tree, path: seq<string>)
    requires Decides(overlay, path) && (At(overlay, path).Some? ==> !At(overlay, path).value.Object?)
    ensures At(Overlay(base, overlay), path) == At(overlay, path)
    decreases |path|
  {
    if path != [] && overlay.Object? && base.Some? && base.value.Object? {
      OverlayObjects(base.value.fields, overlay.fields);
      MergeAt(base.value.fields, overlay.fields, path[0]);
      OtherValuesReplace(Field(base.value.fields, path[0]), overlay.fields[path[0]], path[1..]);
    }
  }

  lemma {:induction false} OverlayDefers(base: Tree, overlay: Tree, path: seq<string>)
    requires !Decides(overlay, path)
    ensures At(Overlay(Some(base), overlay), path) == At(base, path)
    decreases |path|
  {
    if base.Object? {
      OverlayObjects(base.fields, overlay.fields);
      MergeAt(base.fields, overlay.fields, path[0]);
      if path[0] in overlay.fields {
        if path[0] in base.fields {
          OverlayDefers(base.fields[path[0]], overlay.fields[path[0]], path[1..]);
        } else {
          UndecidedIsAbsent(overlay.fields[path[0]], path[1..]);
        }
      }
    } else {
      UndecidedIsAbsent(overlay, path);
    }
  }

  lemma {:induction false} UndecidedIsAbsent(tree: Tree, path: seq<string>)
    requires !Decides(tree, path)
    ensures At(tree, path) == None
    decreases |path|
  {
    if path[0] in tree.fields {
      UndecidedIsAbsent(tree.fields[path[0]], path[1..]);
    }
  }

  /**
   Layered lookup: for any documents and any path, the merged tree gives the
   answer of the last document that decides the path.
   */
  lemma {:induction false} LayeredLookup(documents: seq<Document>, path: seq<string>)
    requires path != []
    ensures Answer(Folded(documents), path) == Layered(documents, path)
  {
    if documents != [] {
      var last := |documents| - 1;
      LayeredLookup(documents[..last], path);
      var base, overlay := Folded(documents[..last]), documents[last];
      OverlayObjects(base, overlay);
      if Decides(Object(overlay), path) {
        OverlayDecides(Some(Object(base)), Object(overlay), path);
      } else {
        OverlayDefers(Object(base), Object(overlay), path);
      }
    }
  }

  // ---------------------------------------------------------------- associativity

  /** The overlay has all that the base has, at every level where both are objects. */
  ghost predicate Absorbed(base: Tree, overlay: Tree)
    decreases overlay
  {
    base.Object? && overlay.Object? ==>
      forall key | key in base.fields ::
        key in overlay.fields && Absorbed(base.fields[key], overlay.fields[key])
  }

  /** No value between two objects cuts off something of the first that the last does not bring again. */
  ghost predicate NothingCutOff(a: Tree, b: Tree, c: Tree)
    decreases c
  {
    a.Object? && c.Object? ==>
      if b.Object? then
        forall key | key in a.fields && key in b.fields && key in c.fields ::
          NothingCutOff(a.fields[key], b.fields[key], c.fields[key])
      else Absorbed(a, c)
  }

  lemma {:induction false} AbsorbedExactly(base: Tree, overlay: Tree)
    ensures Absorbed(base, overlay) <==> Overlay(Some(base), overlay) == overlay
    decreases overlay
  {
    if base.Object? && overlay.Object? {
      var merged := Merge(base.fields, overlay.fields);
      forall key | key in base.fields && key in overlay.fields
        ensures Absorbed(base.fields[key], overlay.fields[key]) <==> merged[key] == overlay.fields[key]
      {
        AbsorbedExactly(base.fields[key], overlay.fields[key]);
      }
      if Absorbed(base, overlay) {
        assert merged.Keys == overlay.fields.Keys;
        forall key | key in merged ensures merged[key] == overlay.fields[key] {
          MergeAt(base.fields, overlay.fields, key);
          assert key in base.fields ==> Absorbed(base.fields[key], overlay.fields[key]);
        }
        assert merged == overlay.fields;
      } else {
        var key :| key in base.fields
                   && !(key in overlay.fields && Absorbed(base.fields[key], overlay.fields[key]));
        assert key in merged;
      }
    }
  }

  /** Overlaying is associative on three trees exactly when no value between two objects cuts something off. */
  lemma {:induction false} AssociativeExactly(a: Tree, b: Tree, c: Tree)
    ensures Overlay(Some(Overlay(Some(a), b)), c) == Overlay(Some(a), Overlay(Some(b), c))
       <==> NothingCutOff(a, b, c)
    decreases c, 2
  {
    if a.Object? && c.Object? {
      if b.Object? {
        AssociativeObjects(a.fields, b.fields, c.fields);
      } else {
        AbsorbedExactly(a, c);
      }
    }
  }

  lemma {:induction false} AssociativeObjects(a: Document, b: Document, c: Document)
    ensures Merge(Merge(a, b), c) == Merge(a, Merge(b, c)) <==> NothingCutOff(Object(a), Object(b), Object(c))
    decreases Object(c), 1
  {
    var left, right := Merge(Merge(a, b), c), Merge(a, Merge(b, c));
    assert left.Keys == right.Keys;
    forall key | key in left
      ensures left[key] == right[key]
         <==> (key in a && key in b && key in c ==> NothingCutOff(a[key], b[key], c[key]))
    {
      AssociativeAt(a, b, c, key);
    }
    assert left == right <==> forall key | key in left :: left[key] == right[key];
  }

  lemma {:induction false} AssociativeAt(a: Document, b: Document, c: Document, key: string)
    requires key in a || key in b || key in c
    ensures Field(Merge(Merge(a, b), c), key) == Field(Merge(a, Merge(b, c)), key)
       <==> (key in a && key in b && key in c ==> NothingCutOff(a[key], b[key], c[key]))
    decreases Object(c), 0
  {
    MergeAt(Merge(a, b), c, key);
    MergeAt(a, b, key);
    MergeAt(a, Merge(b, c), key);
    MergeAt(b, c, key);
    hide Merge;
    if key in a && key in b && key in c {
      assert c[key] < Object(c);
      AssociativeExactly(a[key], b[key], c[key]);
    }
  }

  /** A scalar between two objects: folding from the left and from the right differ. */
  lemma MergeIsNotAssociative()
    ensures var a: Document := map["k" := Object(map["x" := Null])];
            var b: Document := map["k" := Null];
            var c: Document := map["k" := Object(map[])];
            Merge(Merge(a, b), c) != Merge(a, Merge(b, c))
  {
    var a: Document := map["k" := Object(map["x" := Null])];
    var b: Document := map["k" := Null];
    var c: Document := map["k" := Object(map[])];
    AssociativeObjects(a, b, c);
    assert "x" in a["k"].fields && "x" !in c["k"].fields;
    assert !Absorbed(a["k"], c["k"]);
    assert !NothingCutOff(a["k"], b["k"], c["k"]);
  }

  // ---------------------------------------------------------------- paths

  /** The segments between the dots; there is always at least one. */
  function Segments(path: string): (r: seq<string>)
    ensures r != []
  {
    if path == "" then [""]
    else
      var rest := Segments(path[1..]);
      if path[0] == '.' then [""] + rest else [[path[0]] + rest[0]] + rest[1..]
  }

  function Dotted(segments: seq<string>): string
    requires segments != []
  {
    if |segments| == 1 then segments[0] else segments[0] + "." + Dotted(segments[1..])
  }

  /** The segments are dot-free and joining them gives the path back: the only such reading of it. */
  lemma {:induction false} SegmentsRoundTrip(path: string)
    ensures Dotted(Segments(path)) == path
    ensures forall i | 0 <= i < |Segments(path)| :: '.' !in Segments(path)[i]
  {
    if path != "" {
      SegmentsRoundTrip(path[1..]);
      var rest := Segments(path[1..]);
      var whole := Segments(path);
      assert path == [path[0]] + path[1..];
      if path[0] == '.' {
        assert whole[1..] == rest;
        assert Dotted(whole) == "" + "." + Dotted(rest);
      } else {
        assert whole[1..] == rest[1..];
      }
    }
  }

  lemma {:induction false} DottedRoundTrip(segments: seq<string>)
    requires segments != [] && forall i | 0 <= i < |segments| :: '.' !in segments[i]
    ensures Segments(Dotted(segments)) == segments
    decreases |segments|, |segments[0]|
  {
    var path := Dotted(segments);
    if segments[0] == "" {
      if |segments| > 1 {
        DottedRoundTrip(segments[1..]);
        assert path[1..] == Dotted(segments[1..]);
      }
    } else {
      var shorter := [segments[0][1..]] + segments[1..];
      assert forall i | 0 <= i < |shorter| :: '.' !in shorter[i];
      DottedRoundTrip(shorter);
      assert shorter[1..] == segments[1..];
      assert path[1..] == Dotted(shorter);
      assert path[0] == segments[0][0];
      assert segments[0] == [path[0]] + segments[0][1..];
    }
  }
}
