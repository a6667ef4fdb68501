/** Agent output contracts: the recursive validator over JSON trees, and what it decides. */
module Contracts {
  import opened Prelude
  import opened Strings
  import opened Utf8

  /** A decoded JSON value. Objects are maps: iterating over one takes its keys in any order. */
  datatype Json =
    | Null | Boolean(b: bool) | Number(n: real) | Str(s: string)
    | Array(items: seq<Json>) | Object(fields: map<string, Json>)

  datatype Format = AnyFormat | DateTime | Sha256

  datatype FieldSpec =
    | Chars(min: nat, allowed: seq<string>, constant: string, format: Format)
    | Scalar
    | Num(least: Option<real>, most: Option<real>)
    | Flag
    | ListOf(item: FieldSpec)
    | Record(spec: ObjectSpec)
    | Unsupported

  /** `extra` is what the validator demands of fields the record does not name, when it lets them in at all. */
  datatype ObjectSpec = ObjectSpec(named: map<string, FieldSpec>, required: seq<string>, additional: bool,
                                   extra: Option<FieldSpec>)

  datatype Code = EmptyOutput | Malformed | ContractInvalid | EvidenceInvalid | UntrustedClaims

  /** RFC 3339 parsing belongs to the time library. */
  type Dates = string -> bool

  // ---- What a contract means ----

  datatype Segment = Key(k: string) | Index(i: nat)

  /** The part of a value that one path segment names. */
  function Child(v: Json, head: Segment): Option<Json> {
    if head.Key? then if v.Object? && head.k in v.fields then Some(v.fields[head.k]) else None
    else if v.Array? && head.i < |v.items| then Some(v.items[head.i]) else None
  }

  function At(v: Json, path: seq<Segment>): Option<Json>
    decreases |path|
  {
    if path == [] then Some(v)
    else if Child(v, path[0]).None? then None
    else At(Child(v, path[0]).value, path[1..])
  }

  datatype Expected = Exactly(f: FieldSpec) | Anything | Nothing

  /** What a record lets a field be. */
  function FieldFor(spec: ObjectSpec, k: string): Expected {
    if k in spec.named then Exactly(spec.named[k])
    else if !spec.additional then Nothing
    else if spec.extra.Some? then Exactly(spec.extra.value)
    else Anything
  }

  function ExpectedChild(f: FieldSpec, head: Segment): Expected {
    if head.Key? && f.Record? then FieldFor(f.spec, head.k)
    else if head.Index? && f.ListOf? then Exactly(f.item)
    else Anything
  }

  /** What the contract expects at a path. */
  function ExpectedAt(f: FieldSpec, path: seq<Segment>): Expected
    decreases |path|
  {
    if path == [] then Exactly(f)
    else match ExpectedChild(f, path[0])
      case Exactly(g) => ExpectedAt(g, path[1..])
      case e => e
  }

  predicate CharsFit(dates: Dates, f: FieldSpec, s: string)
    requires f.Chars?
  {
    && ByteLen(s) >= f.min && (f.allowed != [] ==> s in f.allowed) && (f.constant != "" ==> s == f.constant)
    && (f.format == DateTime ==> dates(s))
    && (f.format == Sha256 ==> |s| == 64 && forall i :: 0 <= i < 64 ==> HexChar(s[i]))
  }

  predicate NumFits(f: FieldSpec, n: real)
    requires f.Num?
  {
    (f.least.Some? ==> f.least.value <= n) && (f.most.Some? ==> n <= f.most.value)
  }

  /** The value alone, not what is inside it. */
  predicate Fits(dates: Dates, f: FieldSpec, v: Json) {
    match f
    case Chars(_, _, _, _) => v.Str? && CharsFit(dates, f, v.s)
    case Scalar => v.Str? || v.Number?
    case Num(_, _) => v.Number? && NumFits(f, v.n)
    case Flag => v.Boolean?
    case ListOf(_) => v.Array?
    case Record(spec) => v.Object? && forall i :: 0 <= i < |spec.required| ==> spec.required[i] in v.fields
    case Unsupported => false
  }

  /** Every value in the tree is what the contract expects at its place. */
  ghost predicate Conforms(dates: Dates, f: FieldSpec, v: Json) {
    forall path :: At(v, path).Some? ==> Suits(dates, ExpectedAt(f, path), At(v, path).value)
  }

  predicate Suits(dates: Dates, e: Expected, v: Json) {
    match e
    case Exactly(f) => Fits(dates, f, v)
    case Anything => true
    case Nothing => false
  }

  // ---- The validator ----

  ghost predicate KeyConforms(dates: Dates, spec: ObjectSpec, k: string, v: Json) {
    match FieldFor(spec, k)
    case Exactly(f) => Conforms(dates, f, v)
    case Anything => true
    case Nothing => false
  }

  method ValidateObject(dates: Dates, spec: ObjectSpec, v: Json) returns (r: Option<Code>)
    requires v.Object?
    ensures r.None? <==> Conforms(dates, Record(spec), v)
    ensures r.Some? ==> r.value == ContractInvalid
    decreases v, 0
  {
    RecordUnfolds(dates, spec, v);
    for i := 0 to |spec.required|
      invariant forall k :: 0 <= k < i ==> spec.required[k] in v.fields
    {
      if spec.required[i] !in v.fields {
        return Some(ContractInvalid);
      }
    }
    var todo := v.fields.Keys;
    while todo != {}
      invariant todo <= v.fields.Keys
      invariant forall k :: k in v.fields && k !in todo ==> KeyConforms(dates, spec, k, v.fields[k])
    {
      var key :| key in todo;
      todo := todo - {key};
      if key !in spec.named {
        if !spec.additional {
          return Some(ContractInvalid);
        }
        if spec.extra.Some? {
          var bad := ValidateField(dates, spec.extra.value, v.fields[key]);
          if bad.Some? {
            return bad;
          }
        }
      } else {
        var bad := ValidateField(dates, spec.named[key], v.fields[key]);
        if bad.Some? {
          return bad;
        }
      }
    }
    return None;
  }

  method ValidateField(dates: Dates, f: FieldSpec, v: Json) returns (r: Option<Code>)
    ensures r.None? <==> Conforms(dates, f, v)
    ensures r.Some? ==> r.value == ContractInvalid
    decreases v, 1
  {
    ConformsHere(dates, f, v);
    match f {
      case Chars(min, allowed, constant, format) =>
        if !v.Str? || ByteLen(v.s) < min || (allowed != [] && v.s !in allowed) {
          return Some(ContractInvalid);
        }
        if (constant != "" && v.s != constant) || (format == DateTime && !dates(v.s)) {
          return Some(ContractInvalid);
        }
        if format == Sha256 && !Hex64(v.s) {
          return Some(ContractInvalid);
        }
      case Scalar =>
        if !v.Str? && !v.Number? {
          return Some(ContractInvalid);
        }
      case Num(least, most) =>
        if !v.Number? || (least.Some? && v.n < least.value) || (most.Some? && v.n > most.value) {
          return Some(ContractInvalid);
        }
      case Flag =>
        if !v.Boolean? {
          return Some(ContractInvalid);
        }
      case ListOf(item) =>
        if !v.Array? {
          return Some(ContractInvalid);
        }
        ListUnfolds(dates, f, v);
        for i := 0 to |v.items|
          invariant forall k :: 0 <= k < i ==> Conforms(dates, item, v.items[k])
        {
          var bad := ValidateField(dates, item, v.items[i]);
          if bad.Some? {
            return bad;
          }
        }
        return None;
      case Record(spec) =>
        if !v.Object? {
          return Some(ContractInvalid);
        }
        r := ValidateObject(dates, spec, v);
        return;
      case Unsupported =>
        return Some(ContractInvalid);
    }
    ListUnfolds(dates, f, v);
    return None;
  }

  lemma ConformsHere(dates: Dates, f: FieldSpec, v: Json)
    ensures Conforms(dates, f, v) ==> Fits(dates, f, v)
  {
    assert At(v, []) == Some(v) && ExpectedAt(f, []) == Exactly(f);
  }

  /** A child conforms when every path through it suits. */
  lemma ChildConforms(dates: Dates, f: FieldSpec, v: Json, head: Segment)
    requires Conforms(dates, f, v) && Child(v, head).Some?
    ensures match ExpectedChild(f, head)
            case Exactly(g) => Conforms(dates, g, Child(v, head).value)
            case Anything => true
            case Nothing => false
  {
    var c := Child(v, head).value;
    assert At(c, []) == Some(c);
    forall path: seq<Segment> | At(c, path).Some?
      ensures ([head] + path)[1..] == path && At(v, [head] + path) == At(c, path)
      ensures Suits(dates, ExpectedAt(f, [head] + path), At(c, path).value)
    {
      assert ([head] + path)[1..] == path;
      assert At(v, [head] + path) == At(c, path);
    }
  }

  lemma FromChildren(dates: Dates, f: FieldSpec, v: Json)
    requires Fits(dates, f, v)
    requires forall head :: Child(v, head).Some? ==>
               ExpectedChild(f, head) != Nothing
               && (ExpectedChild(f, head).Exactly? ==> Conforms(dates, ExpectedChild(f, head).f, Child(v, head).value))
    ensures Conforms(dates, f, v)
  {
    forall path: seq<Segment> | At(v, path).Some? ensures Suits(dates, ExpectedAt(f, path), At(v, path).value) {
      if path != [] {
        assert Child(v, path[0]).Some?;
        assert At(Child(v, path[0]).value, path[1..]) == At(v, path);
      }
    }
  }

  lemma RecordUnfolds(dates: Dates, spec: ObjectSpec, v: Json)
    requires v.Object?
    ensures Conforms(dates, Record(spec), v) <==>
              Fits(dates, Record(spec), v) && forall k :: k in v.fields ==> KeyConforms(dates, spec, k, v.fields[k])
  {
    hide Conforms, Fits;
    var f := Record(spec);
    ConformsHere(dates, f, v);
    if Conforms(dates, f, v) {
      forall k | k in v.fields ensures KeyConforms(dates, spec, k, v.fields[k]) {
        ChildConforms(dates, f, v, Key(k));
      }
    }
    if Fits(dates, f, v) && forall k :: k in v.fields ==> KeyConforms(dates, spec, k, v.fields[k]) {
      forall head | Child(v, head).Some?
        ensures ExpectedChild(f, head) != Nothing
        ensures ExpectedChild(f, head).Exactly? ==> Conforms(dates, ExpectedChild(f, head).f, Child(v, head).value)
      {
        assert KeyConforms(dates, spec, head.k, v.fields[head.k]);
      }
      FromChildren(dates, f, v);
    }
  }

  lemma ListUnfolds(dates: Dates, f: FieldSpec, v: Json)
    requires Fits(dates, f, v) && !f.Record?
    ensures Conforms(dates, f, v) <==>
        (f.ListOf? ==> forall i :: 0 <= i < |v.items| ==> Conforms(dates, f.item, v.items[i]))
  {
    hide Conforms, CharsFit, NumFits;
    if f.ListOf? && Conforms(dates, f, v) {
      forall i | 0 <= i < |v.items| ensures Conforms(dates, f.item, v.items[i]) {
        ChildConforms(dates, f, v, Index(i));
      }
    }
    if f.ListOf? ==> forall i :: 0 <= i < |v.items| ==> Conforms(dates, f.item, v.items[i]) {
      FromChildren(dates, f, v);
    }
  }
}
