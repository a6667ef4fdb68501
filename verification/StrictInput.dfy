/** Strict acceptance of an uploaded input: no null, no repeated key, bounded depth, exactly the expected fields. */
module StrictInput {
  import opened Prelude

  const MAX_DEPTH := 10000

  /** A JSON document as written: members in order, keys possibly repeated. */
  datatype Doc =
    | Null | Flag(b: bool) | Num(n: real) | Str(s: string) | Arr(items: seq<Doc>) | Obj(members: seq<(string, Doc)>)

  function Part(v: Doc, i: nat): Option<Doc> {
    match v
    case Arr(items) => if i < |items| then Some(items[i]) else None
    case Obj(members) => if i < |members| then Some(members[i].1) else None
    case _ => None
  }

  /** The part of a document at a path of positions. */
  function At(v: Doc, path: seq<nat>): Option<Doc>
    decreases |path|
  {
    if path == [] then Some(v)
    else if Part(v, path[0]).None? then None
    else At(Part(v, path[0]).value, path[1..])
  }

  predicate DistinctKeys(members: seq<(string, Doc)>) {
    forall i, j :: 0 <= i < j < |members| ==> members[i].0 != members[j].0
  }

  predicate Clean(v: Doc) { !v.Null? && (v.Obj? ==> DistinctKeys(v.members)) }

  /** Nowhere a null or a repeated key, and nothing nested deeper than `room`. */
  ghost predicate Strict(v: Doc, room: int) {
    forall path :: At(v, path).Some? ==> Clean(At(v, path).value) && |path| <= room
  }

  lemma PartStrict(v: Doc, i: nat, room: int)
    requires Strict(v, room) && Part(v, i).Some?
    ensures Strict(Part(v, i).value, room - 1)
  {
    var c := Part(v, i).value;
    forall path: seq<nat> | At(c, path).Some? ensures Clean(At(c, path).value) && |path| <= room - 1 {
      assert ([i] + path)[1..] == path;
      assert At(v, [i] + path) == At(c, path);
    }
  }

  lemma StrictUnfolds(v: Doc, room: int)
    ensures Strict(v, room) <==> Clean(v) && 0 <= room && forall i: nat :: Part(v, i).Some? ==>
        Strict(Part(v, i).value, room - 1)
  {
    if Strict(v, room) {
      assert At(v, []) == Some(v);
      forall i: nat | Part(v, i).Some? ensures Strict(Part(v, i).value, room - 1) {
        PartStrict(v, i, room);
      }
    }
    if Clean(v) && 0 <= room && forall i: nat :: Part(v, i).Some? ==> Strict(Part(v, i).value, room - 1) {
      forall path: seq<nat> | At(v, path).Some? ensures Clean(At(v, path).value) && |path| <= room {
        if path != [] {
          assert Part(v, path[0]).Some?;
          assert At(Part(v, path[0]).value, path[1..]).Some?;
        }
      }
    }
  }

  /** The recursive walk over the document's tokens. */
  method Walk(v: Doc, depth: nat) returns (ok: bool)
    ensures ok <==> Strict(v, 10000 - depth)
    decreases v
  {
    hide Strict, At;
    StrictUnfolds(v, MAX_DEPTH - depth);
    if depth > MAX_DEPTH || v.Null? {
      return false;
    }
    if v.Obj? {
      var keys: set<string> := {};
      for i := 0 to |v.members|
        invariant forall k :: k in keys <==> exists j :: 0 <= j < i && v.members[j].0 == k
        invariant DistinctKeys(v.members[..i])
        invariant forall j: nat :: j < i ==> Strict(v.members[j].1, MAX_DEPTH - depth - 1)
      {
        if v.members[i].0 in keys {
          return false;
        }
        keys := keys + {v.members[i].0};
        var inside := Walk(v.members[i].1, depth + 1);
        if !inside {
          assert Part(v, i) == Some(v.members[i].1);
          return false;
        }
      }
      assert v.members[..|v.members|] == v.members;
    } else if v.Arr? {
      for i := 0 to |v.items|
        invariant forall j: nat :: j < i ==> Strict(v.items[j], MAX_DEPTH - depth - 1)
      {
        var inside := Walk(v.items[i], depth + 1);
        if !inside {
          assert Part(v, i) == Some(v.items[i]);
          return false;
        }
      }
    }
    return true;
  }

  // ---- Exact fields ----

  /** The shape of the value that is decoded into. */
  datatype Shape = Leaf | ListOf(item: Shape) | Table(item: Shape) | Struct(fields: map<string, Shape>)

  /** The shape of a part, or none where no part may be. */
  function PartShape(t: Shape, v: Doc, i: nat): Option<Shape>
    requires Part(v, i).Some?
  {
    match t
    case Leaf => Some(Leaf)
    case ListOf(item) => Some(if v.Arr? then item else Leaf)
    case Table(item) => Some(if v.Obj? then item else Leaf)
    case Struct(fields) => if v.Obj? && v.members[i].0 in fields then Some(fields[v.members[i].0]) else None
  }

  /** The shape expected at a path; below a leaf anything goes. */
  function ShapeAt(t: Shape, v: Doc, path: seq<nat>): Option<Shape>
    requires At(v, path).Some?
    decreases |path|
  {
    if path == [] then Some(t)
    else match PartShape(t, v, path[0])
      case None => None
      case Some(u) => ShapeAt(u, Part(v, path[0]).value, path[1..])
  }

  /** Every struct is filled from an object, and every key, spelled exactly, is one of its fields. */
  ghost predicate Exact(t: Shape, v: Doc) {
    forall path :: At(v, path).Some? ==>
        ShapeAt(t, v, path).Some? && (ShapeAt(t, v, path).value.Struct? ==> At(v, path).value.Obj?)
  }

  lemma PartExact(t: Shape, v: Doc, i: nat)
    requires Exact(t, v) && Part(v, i).Some?
    ensures PartShape(t, v, i).Some? && Exact(PartShape(t, v, i).value, Part(v, i).value)
  {
    var c := Part(v, i).value;
    assert At(c, []) == Some(c) && ([i] + [])[1..] == [] && At(v, [i] + []) == Some(c);
    assert ShapeAt(t, v, [i] + []).Some?;
    var u := PartShape(t, v, i).value;
    forall path: seq<nat> | At(c, path).Some?
      ensures ShapeAt(u, c, path).Some? && (ShapeAt(u, c, path).value.Struct? ==> At(c, path).value.Obj?) {
      assert ([i] + path)[1..] == path;
      assert At(v, [i] + path) == At(c, path);
      assert ShapeAt(t, v, [i] + path) == ShapeAt(u, c, path);
    }
  }

  ghost predicate PartsExact(t: Shape, v: Doc) {
    forall i: nat :: Part(v, i).Some? ==> PartShape(t, v, i).Some? && Exact(PartShape(t, v, i).value, Part(v, i).value)
  }

  lemma ExactUnfolds(t: Shape, v: Doc)
    ensures Exact(t, v) <==> ((t.Struct? ==> v.Obj?) && PartsExact(t, v))
  {
    if Exact(t, v) {
      assert At(v, []) == Some(v) && ShapeAt(t, v, []) == Some(t);
      forall i: nat | Part(v, i).Some?
        ensures PartShape(t, v, i).Some? && Exact(PartShape(t, v, i).value, Part(v, i).value) {
        PartExact(t, v, i);
      }
    }
    if (t.Struct? ==> v.Obj?) && PartsExact(t, v) {
      forall path: seq<nat> | At(v, path).Some?
        ensures ShapeAt(t, v, path).Some? && (ShapeAt(t, v, path).value.Struct? ==> At(v, path).value.Obj?)
      {
        if path != [] {
          assert Part(v, path[0]).Some?;
        }
      }
    }
  }

  lemma LeafIsExact(v: Doc)
    ensures Exact(Leaf, v)
  {
    forall path: seq<nat> | At(v, path).Some? ensures ShapeAt(Leaf, v, path) == Some(Leaf) {
      LeafBelow(v, path);
    }
  }

  lemma {:induction false} LeafBelow(v: Doc, path: seq<nat>)
    requires At(v, path).Some?
    ensures ShapeAt(Leaf, v, path) == Some(Leaf)
    decreases |path|
  {
    if path != [] {
      LeafBelow(Part(v, path[0]).value, path[1..]);
    }
  }

  method ExactFields(t: Shape, v: Doc) returns (ok: bool)
    ensures ok <==> Exact(t, v)
    decreases v
  {
    hide Exact, At, ShapeAt;
    ExactUnfolds(t, v);
    if t.Struct? {
      if !v.Obj? {
        return false;
      }
      for i := 0 to |v.members|
        invariant forall j: nat :: j < i ==>
            v.members[j].0 in t.fields && Exact(t.fields[v.members[j].0], v.members[j].1)
      {
        assert Part(v, i) == Some(v.members[i].1);
        if v.members[i].0 !in t.fields {
          return false;
        }
        var inside := ExactFields(t.fields[v.members[i].0], v.members[i].1);
        if !inside {
          return false;
        }
      }
    } else if t.ListOf? && v.Arr? {
      for i := 0 to |v.items|
        invariant forall j: nat :: j < i ==> Exact(t.item, v.items[j])
      {
        assert Part(v, i) == Some(v.items[i]);
        var inside := ExactFields(t.item, v.items[i]);
        if !inside {
          return false;
        }
      }
    } else if t.Table? && v.Obj? {
      for i := 0 to |v.members|
        invariant forall j: nat :: j < i ==> Exact(t.item, v.members[j].1)
      {
        assert Part(v, i) == Some(v.members[i].1);
        var inside := ExactFields(t.item, v.members[i].1);
        if !inside {
          return false;
        }
      }
    } else {
      forall i: nat | Part(v, i).Some? ensures PartShape(t, v, i) == Some(Leaf) && Exact(Leaf, Part(v, i).value) {
        LeafIsExact(Part(v, i).value);
      }
    }
    return true;
  }
}
