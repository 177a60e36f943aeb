/** Pydantic-style validation of JSON values against model descriptors.

    A `Type` describes what a pydantic model field accepts; `Validate` checks a
    value against it and, on success, returns the value `model_dump()` would
    produce (declared fields only, in declaration order, defaults filled in).
    On failure it returns every problem found, each with its location, as a
    `ValidationError` does. */
module Validation {
  import opened Wrappers
  import opened Json
  import PyText

  datatype Type =
    | TStr                       // str
    | TInt                       // int
    | TFloat                     // float (an int is accepted and becomes a float)
    | TBool                      // bool
    | TAny                       // Any
    | TDict                      // Dict[str, Any]
    | TOptional(inner: Type)     // Optional[T]
    | TList(elem: Type)          // List[T]
    | TModel(name: string, fields: seq<Field>)

  datatype Field = Field(name: string, ty: Type, presence: Presence)

  /** `Field(...)` (required) or a field with a default value. */
  datatype Presence = Required | Defaulted(default: Json)

  datatype Loc = AtKey(key: string) | AtIndex(index: nat)

  datatype IssueKind =
    | JsonInvalid(message: string)
    | Missing
    | StringType
    | IntType
    | FloatType
    | BoolType
    | DictType
    | ListType
    | ModelType(model: string)

  datatype Issue = Issue(loc: seq<Loc>, kind: IssueKind)

  type Issues = seq<Issue>

  function Fail(kind: IssueKind): Result<Json, Issues> {
    Err([Issue([], kind)])
  }

  /** Re-roots a child's issues under the key or index it was found at. */
  function Under(l: Loc, r: Result<Json, Issues>): (r': Result<Json, Issues>)
    ensures r'.Ok? <==> r.Ok?
    ensures r.Ok? ==> r' == r
    ensures r.Err? ==> |r'.error| == |r.error|
  {
    match r
    case Ok(v) => Ok(v)
    case Err(e) => Err(seq(|e|, k requires 0 <= k < |e| => Issue([l] + e[k].loc, e[k].kind)))
  }

  /** Collects a head result and a tail result: both values, or all issues. */
  function Cons<A>(h: Result<A, Issues>, t: Result<seq<A>, Issues>): (r: Result<seq<A>, Issues>)
    ensures r.Ok? <==> h.Ok? && t.Ok?
    ensures r.Ok? ==> r.value == [h.value] + t.value
    ensures (h.Err? ==> h.error != []) && (t.Err? ==> t.error != []) ==> (r.Err? ==> r.error != [])
  {
    match h
    case Ok(x) => (match t case Ok(xs) => Ok([x] + xs) case Err(e) => Err(e))
    case Err(e) => (match t case Ok(_) => Err(e) case Err(e2) => Err(e + e2))
  }

  /** `model_validate` followed by `model_dump`. */
  function Validate(ty: Type, j: Json): (r: Result<Json, Issues>)
    ensures r.Err? ==> r.error != []
    ensures r.Ok? && ty.TModel? ==> r.value.Object?
    decreases ty, 1
  {
    match ty
    case TStr => if j.String? then Ok(j) else Fail(StringType)
    case TInt => if j.Int? then Ok(j) else Fail(IntType)
    case TFloat =>
      if j.Float? then Ok(j)
      else if j.Int? then Ok(Float(PyText.IntToString(j.i) + ".0"))
      else Fail(FloatType)
    case TBool => if j.Bool? then Ok(j) else Fail(BoolType)
    case TAny => Ok(j)
    case TDict => if j.Object? then Ok(j) else Fail(DictType)
    case TOptional(t) => if j.Null? then Ok(Null) else Validate(t, j)
    case TList(_) =>
      if !j.Array? then Fail(ListType)
      else
        (match ValidateItems(ty, j.items, 0)
         case Ok(xs) => Ok(Array(xs))
         case Err(e) => Err(e))
    case TModel(n, _) =>
      if !j.Object? then Fail(ModelType(n))
      else
        match ValidateFields(ty, j.members, 0)
        case Ok(ms) => Ok(Object(ms))
        case Err(e) => Err(e)
  }

  /** Validates `items[i..]` against the element type of the list type `ty`;
      the batch succeeds only when every element does. */
  function ValidateItems(ty: Type, items: seq<Json>, i: nat): (r: Result<seq<Json>, Issues>)
    requires ty.TList? && i <= |items|
    ensures r.Err? ==> r.error != []
    ensures r.Ok? <==> forall k :: i <= k < |items| ==> Validate(ty.elem, items[k]).Ok?
    ensures r.Ok? ==> |r.value| == |items| - i
    ensures r.Ok? ==> forall k :: i <= k < |items| ==> r.value[k - i] == Validate(ty.elem, items[k]).value
    decreases ty, 0, |items| - i
  {
    if i == |items| then Ok([])
    else Cons(Under(AtIndex(i), Validate(ty.elem, items[i])), ValidateItems(ty, items, i + 1))
  }

  /** The dumped value of field `i` of the model type `ty`, read from the
      members `ms` of the input object. */
  function FieldResult(ty: Type, ms: Members, i: nat): (r: Result<Json, Issues>)
    requires ty.TModel? && i < |ty.fields|
    ensures r.Err? ==> r.error != []
    decreases ty, 0, |ty.fields| - i
  {
    var f := ty.fields[i];
    match Lookup(ms, f.name)
    case Some(v) => Under(AtKey(f.name), Validate(f.ty, v))
    case None =>
      (match f.presence
       case Required => Err([Issue([AtKey(f.name)], Missing)])
       case Defaulted(d) => Ok(d))
  }

  /** Validates fields `i..` of the model type `ty`; extra input keys are
      ignored, and the output lists the declared fields in order. */
  function ValidateFields(ty: Type, ms: Members, i: nat): (r: Result<Members, Issues>)
    requires ty.TModel? && i <= |ty.fields|
    ensures r.Err? ==> r.error != []
    ensures r.Ok? ==> |r.value| == |ty.fields| - i
    decreases ty, 0, |ty.fields| - i + 1
  {
    if i == |ty.fields| then Ok([])
    else
      var h := FieldResult(ty, ms, i);
      var t := ValidateFields(ty, ms, i + 1);
      var h': Result<(string, Json), Issues> :=
        if h.Ok? then Ok((ty.fields[i].name, h.value)) else Err(h.error);
      Cons(h', t)
  }

  /** The fields of a model validate together: the whole object is accepted
      exactly when every declared field is, and the output binds each declared
      name, in order, to that field's dumped value. */
  lemma {:induction false} ValidateFieldsSpec(ty: Type, ms: Members, i: nat)
    requires ty.TModel? && i <= |ty.fields|
    ensures ValidateFields(ty, ms, i).Ok? <==> FieldsFrom(ty, ms, i)
    ensures ValidateFields(ty, ms, i).Ok? ==> forall k :: i <= k < |ty.fields| ==>
      ValidateFields(ty, ms, i).value[k - i] == (ty.fields[k].name, FieldResult(ty, ms, k).value)
    decreases |ty.fields| - i
  {
    if i < |ty.fields| {
      ValidateFieldsSpec(ty, ms, i + 1);
    }
  }

  /** Every declared field from `i` on validates. */
  predicate FieldsFrom(ty: Type, ms: Members, i: nat)
    requires ty.TModel?
  {
    forall k :: i <= k < |ty.fields| ==> FieldResult(ty, ms, k).Ok?
  }

  /** Field `f` can be filled from the input members `ms`: its key is present
      with a valid value, or it is absent and has a default. */
  predicate Supplies(ms: Members, f: Field) {
    match Lookup(ms, f.name)
    case Some(v) => Validate(f.ty, v).Ok?
    case None => f.presence.Defaulted?
  }

  /** The dumped value of a field that `ms` supplies. */
  function Filled(ms: Members, f: Field): Json
    requires Supplies(ms, f)
  {
    match Lookup(ms, f.name)
    case Some(v) => Validate(f.ty, v).value
    case None => f.presence.default
  }

  /** Every field of `fs` is supplied by `ms`. */
  predicate AllSupplied(ms: Members, fs: seq<Field>) {
    forall k :: 0 <= k < |fs| ==> Supplies(ms, fs[k])
  }

  /** A model accepts an object exactly when every declared field is supplied
      (present and valid, or defaulted); extra keys play no part. */
  lemma {:induction false} ModelAccepts(ty: Type, ms: Members)
    requires ty.TModel?
    ensures Validate(ty, Object(ms)).Ok? <==> AllSupplied(ms, ty.fields)
  {
    ValidateFieldsSpec(ty, ms, 0);
    forall k | 0 <= k < |ty.fields|
      ensures FieldResult(ty, ms, k).Ok? <==> Supplies(ms, ty.fields[k])
    {
    }
  }

  /** The dump of an accepted object lists every declared field, in
      declaration order, with its validated value or its default. */
  lemma {:induction false} ModelDump(ty: Type, ms: Members)
    requires ty.TModel? && Validate(ty, Object(ms)).Ok?
    ensures |Validate(ty, Object(ms)).value.members| == |ty.fields|
    ensures forall k :: 0 <= k < |ty.fields| ==>
      Supplies(ms, ty.fields[k]) &&
      Validate(ty, Object(ms)).value.members[k] == (ty.fields[k].name, Filled(ms, ty.fields[k]))
  {
    ValidateFieldsSpec(ty, ms, 0);
    forall k | 0 <= k < |ty.fields|
      ensures FieldResult(ty, ms, k).Ok? <==> Supplies(ms, ty.fields[k])
      ensures FieldResult(ty, ms, k).Ok? ==> FieldResult(ty, ms, k).value == Filled(ms, ty.fields[k])
    {
    }
  }

  /** What the leaf types accept. */
  lemma {:induction false} LeafAccepts(j: Json)
    ensures Validate(TStr, j).Ok? <==> j.String?
    ensures Validate(TInt, j).Ok? <==> j.Int?
    ensures Validate(TFloat, j).Ok? <==> j.Float? || j.Int?
    ensures Validate(TBool, j).Ok? <==> j.Bool?
    ensures Validate(TAny, j) == Ok(j)
    ensures Validate(TDict, j).Ok? <==> j.Object?
    ensures Validate(TOptional(TStr), j).Ok? <==> j.Null? || j.String?
    ensures Validate(TOptional(TDict), j).Ok? <==> j.Null? || j.Object?
  {
  }

  // What single fields demand of the input members.

  lemma {:induction false} RequiredField(ms: Members, name: string, t: Type)
    ensures Supplies(ms, Field(name, t, Required)) <==>
      Lookup(ms, name).Some? && Validate(t, Lookup(ms, name).value).Ok?
  {
  }

  lemma {:induction false} DefaultedField(ms: Members, name: string, t: Type, d: Json)
    ensures Supplies(ms, Field(name, t, Defaulted(d))) <==>
      Lookup(ms, name).None? || Validate(t, Lookup(ms, name).value).Ok?
  {
  }

  /** A list type accepts exactly the arrays all of whose elements its
      element type accepts, and dumps them element by element. */
  lemma {:induction false} ListAccepts(e: Type, j: Json)
    ensures Validate(TList(e), j).Ok? <==> j.Array? && forall k :: 0 <= k < |j.items| ==> Validate(e, j.items[k]).Ok?
    ensures Validate(TList(e), j).Ok? ==>
      && |Validate(TList(e), j).value.items| == |j.items|
      && forall k :: 0 <= k < |j.items| ==> Validate(TList(e), j).value.items[k] == Validate(e, j.items[k]).value
  {
    if j.Array? {
      var v := ValidateItems(TList(e), j.items, 0);
    }
  }

  /** `model_validate_json`: parse the text, then validate. A text that does
      not parse is reported as a single `json_invalid` issue. */
  function ValidateText(parse: Parser, ty: Type, text: string): (r: Result<Json, Issues>)
    ensures parse(text).Err? ==> r == Err([Issue([], JsonInvalid(parse(text).error))])
    ensures parse(text).Ok? ==> r == Validate(ty, parse(text).value)
  {
    match parse(text)
    case Err(m) => Err([Issue([], JsonInvalid(m))])
    case Ok(j) => Validate(ty, j)
  }

  // ---------------------------------------------------------------------------
  // Canonical (dumped) values

  /** `j` has exactly the shape `model_dump()` produces for `ty`. */
  predicate Conforms(ty: Type, j: Json)
    decreases ty
  {
    match ty
    case TStr => j.String?
    case TInt => j.Int?
    case TFloat => j.Float?
    case TBool => j.Bool?
    case TAny => true
    case TDict => j.Object?
    case TOptional(t) => j.Null? || Conforms(t, j)
    case TList(e) => j.Array? && forall k :: 0 <= k < |j.items| ==> Conforms(e, j.items[k])
    case TModel(_, fs) =>
      && j.Object?
      && |j.members| == |fs|
      && forall k :: 0 <= k < |fs| ==>
           j.members[k].0 == fs[k].name && Conforms(fs[k].ty, j.members[k].1)
  }

  predicate UniqueNames(fs: seq<Field>) {
    forall a, b :: 0 <= a < b < |fs| ==> fs[a].name != fs[b].name
  }

  /** A descriptor pydantic would build: distinct field names and defaults
      that are themselves valid dumped values. */
  predicate WellFormed(ty: Type)
    decreases ty
  {
    match ty
    case TOptional(t) => WellFormed(t)
    case TList(e) => WellFormed(e)
    case TModel(_, fs) =>
      && UniqueNames(fs)
      && forall k :: 0 <= k < |fs| ==>
           && WellFormed(fs[k].ty)
           && (fs[k].presence.Defaulted? ==> Conforms(fs[k].ty, fs[k].presence.default))
    case _ => true
  }

  /** Whatever validation returns is a canonical dumped value. */
  lemma {:induction false} ValidatedConforms(ty: Type, j: Json)
    requires WellFormed(ty)
    requires Validate(ty, j).Ok?
    ensures Conforms(ty, Validate(ty, j).value)
    decreases ty
  {
    match ty
    case TOptional(t) =>
      if !j.Null? {
        ValidatedConforms(t, j);
      }
    case TList(e) =>
      var xs := Validate(ty, j).value.items;
      forall k | 0 <= k < |xs| ensures Conforms(e, xs[k]) {
        ValidatedConforms(e, j.items[k]);
      }
    case TModel(_, fs) =>
      ValidateFieldsSpec(ty, j.members, 0);
      var out := Validate(ty, j).value.members;
      forall k | 0 <= k < |fs| ensures Conforms(fs[k].ty, out[k].1) {
        assert out[k] == (fs[k].name, FieldResult(ty, j.members, k).value);
        match Lookup(j.members, fs[k].name)
        case Some(v) =>
          ValidatedConforms(fs[k].ty, v);
        case None =>
      }
    case _ =>
  }

  /** A canonical value validates to itself: dumping and re-validating loses
      nothing. */
  lemma {:induction false} ConformingIsFixed(ty: Type, j: Json)
    requires WellFormed(ty)
    requires Conforms(ty, j)
    ensures Validate(ty, j) == Ok(j)
    decreases ty
  {
    match ty
    case TOptional(t) =>
      if !j.Null? {
        ConformingIsFixed(t, j);
      }
    case TList(e) =>
      forall k | 0 <= k < |j.items| ensures Validate(e, j.items[k]) == Ok(j.items[k]) {
        ConformingIsFixed(e, j.items[k]);
      }
      var xs := ValidateItems(ty, j.items, 0).value;
      assert xs == j.items;
    case TModel(_, fs) =>
      var ms := j.members;
      assert UniqueKeys(ms) by {
        forall a, b | 0 <= a < b < |ms| ensures ms[a].0 != ms[b].0 {
          assert ms[a].0 == fs[a].name && ms[b].0 == fs[b].name;
        }
      }
      forall k | 0 <= k < |fs| ensures FieldResult(ty, ms, k) == Ok(ms[k].1) {
        LookupAt(ms, k);
        ConformingIsFixed(fs[k].ty, ms[k].1);
      }
      ValidateFieldsSpec(ty, ms, 0);
      var out := ValidateFields(ty, ms, 0).value;
      assert out == ms;
    case _ =>
  }

  /** Validation is idempotent: validating a validated value changes nothing. */
  lemma ValidateIdempotent(ty: Type, j: Json)
    requires WellFormed(ty)
    requires Validate(ty, j).Ok?
    ensures Validate(ty, Validate(ty, j).value) == Validate(ty, j)
  {
    ValidatedConforms(ty, j);
    ConformingIsFixed(ty, Validate(ty, j).value);
  }
}
