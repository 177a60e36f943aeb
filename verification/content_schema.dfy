/** The user-configured content record (`build_content_model`).

    A profile may declare `content_structure: {ModelName: {field: tag}}` with
    tags `str`, `int`, `float` and `bool`. The first entry becomes a pydantic
    model whose fields are all required; without a structure the record is
    `TextContent` with one required `text` string. */
module ContentSchema {
  import opened Wrappers
  import opened Json
  import opened Validation

  datatype Tag = StrTag | IntTag | FloatTag | BoolTag

  /** A content record: its model name and its (field, tag) pairs in order. */
  datatype ContentModel = ContentModel(name: string, fields: seq<(string, Tag)>)

  /** Why a content structure cannot be turned into a model: a value that has
      no `.items()` (AttributeError), or a tag missing from the type map
      (KeyError). */
  datatype SchemaError = NotAMapping(value: Json) | UnknownTag(field: string, tag: Json)

  function TagName(t: Tag): string {
    match t
    case StrTag => "str"
    case IntTag => "int"
    case FloatTag => "float"
    case BoolTag => "bool"
  }

  /** Lookup in the type map; only the four tag strings are keys. */
  function ParseTag(j: Json): (r: Option<Tag>)
    ensures r.Some? ==> j == String(TagName(r.value))
  {
    if j == String("str") then Some(StrTag)
    else if j == String("int") then Some(IntTag)
    else if j == String("float") then Some(FloatTag)
    else if j == String("bool") then Some(BoolTag)
    else None
  }

  /** Every tag is recognised under its own name. */
  lemma {:induction false} ParseTagName(t: Tag)
    ensures ParseTag(String(TagName(t))) == Some(t)
  {
  }

  const DefaultModel := ContentModel("TextContent", [("text", StrTag)])

  /** Entry `i` is the first whose tag the type map does not know. */
  predicate FirstUnknown(ms: Members, i: int) {
    && 0 <= i < |ms|
    && ParseTag(ms[i].1).None?
    && forall k :: 0 <= k < i ==> ParseTag(ms[k].1).Some?
  }

  /** The field map comprehension: one field per entry, in order; the first
      unknown tag aborts the whole build. */
  function BuildFields(ms: Members): (r: Result<seq<(string, Tag)>, SchemaError>)
    ensures r.Ok? <==> forall k :: 0 <= k < |ms| ==> ParseTag(ms[k].1).Some?
    ensures r.Ok? ==> |r.value| == |ms|
    ensures r.Ok? ==> forall k :: 0 <= k < |ms| ==> r.value[k] == (ms[k].0, ParseTag(ms[k].1).value)
    ensures r.Err? ==> exists i :: FirstUnknown(ms, i) && r.error == UnknownTag(ms[i].0, ms[i].1)
  {
    if |ms| == 0 then Ok([])
    else
      match ParseTag(ms[0].1)
      case None => Err(UnknownTag(ms[0].0, ms[0].1))
      case Some(t) =>
        match BuildFields(ms[1..])
        case Err(e) =>
          assert forall k :: 1 <= k < |ms| ==> ms[k] == ms[1..][k - 1];
          Err(e)
        case Ok(fs) => Ok([(ms[0].0, t)] + fs)
  }

  /** `build_content_model` applied to the configured structure (`Null` when
      the profile has none). */
  function BuildContentModel(structure: Json): (r: Result<ContentModel, SchemaError>)
    ensures !Truthy(structure) ==> r == Ok(DefaultModel)
    ensures Truthy(structure) && !structure.Object? ==> r == Err(NotAMapping(structure))
    ensures Truthy(structure) && structure.Object? ==>
      var (name, fields) := structure.members[0];
      && (!fields.Object? ==> r == Err(NotAMapping(fields)))
      && (fields.Object? ==> r.Ok? == (forall k :: 0 <= k < |fields.members| ==> ParseTag(fields.members[k].1).Some?))
      && (r.Ok? ==> r.value.name == name && r.value.fields == BuildFields(fields.members).value)
  {
    if !Truthy(structure) then Ok(DefaultModel)
    else if !structure.Object? then Err(NotAMapping(structure))
    else
      var (name, fields) := structure.members[0];
      if !fields.Object? then Err(NotAMapping(fields))
      else
        var fs :- BuildFields(fields.members);
        Ok(ContentModel(name, fs))
  }

  function TagType(t: Tag): Type {
    match t
    case StrTag => TStr
    case IntTag => TInt
    case FloatTag => TFloat
    case BoolTag => TBool
  }

  /** The pydantic model `create_model` builds: every field required. */
  function ToType(cm: ContentModel): (ty: Type)
    ensures ty.TModel? && ty.name == cm.name && |ty.fields| == |cm.fields|
    ensures forall k :: 0 <= k < |cm.fields| ==>
      ty.fields[k] == Field(cm.fields[k].0, TagType(cm.fields[k].1), Required)
  {
    TModel(cm.name, seq(|cm.fields|, k requires 0 <= k < |cm.fields| =>
      Field(cm.fields[k].0, TagType(cm.fields[k].1), Required)))
  }

  /** Whether a single value has the shape a tag demands (an int is also a
      float). */
  predicate Fits(t: Tag, v: Json) {
    match t
    case StrTag => v.String?
    case IntTag => v.Int?
    case FloatTag => v.Float? || v.Int?
    case BoolTag => v.Bool?
  }

  /** A content record accepts an object exactly when every declared field is
      present with a value of its tag's type: nothing is optional. */
  lemma {:induction false} ContentAccepts(cm: ContentModel, ms: Members)
    ensures Validate(ToType(cm), Object(ms)).Ok? <==>
      forall k :: 0 <= k < |cm.fields| ==>
        Lookup(ms, cm.fields[k].0).Some? && Fits(cm.fields[k].1, Lookup(ms, cm.fields[k].0).value)
  {
    var ty := ToType(cm);
    ModelAccepts(ty, ms);
    forall k | 0 <= k < |cm.fields|
      ensures Supplies(ms, ty.fields[k]) <==>
        Lookup(ms, cm.fields[k].0).Some? && Fits(cm.fields[k].1, Lookup(ms, cm.fields[k].0).value)
    {
      assert ty.fields[k] == Field(cm.fields[k].0, TagType(cm.fields[k].1), Required);
    }
  }

  /** A record whose field names are distinct is a well-formed descriptor. */
  lemma {:induction false} ToTypeWellFormed(cm: ContentModel)
    requires forall a, b :: 0 <= a < b < |cm.fields| ==> cm.fields[a].0 != cm.fields[b].0
    ensures WellFormed(ToType(cm))
  {
    var ty := ToType(cm);
    forall a, b | 0 <= a < b < |ty.fields| ensures ty.fields[a].name != ty.fields[b].name {
      assert ty.fields[a].name == cm.fields[a].0;
    }
  }

  /** A model built from a (duplicate-free) configuration has distinct field
      names, so its dumped records validate back to themselves. */
  lemma {:induction false} BuiltRoundTrip(structure: Json, j: Json)
    requires structure.Object? && |structure.members| > 0 && structure.members[0].1.Object?
    requires UniqueKeys(structure.members[0].1.members)
    requires BuildContentModel(structure).Ok?
    requires Validate(ToType(BuildContentModel(structure).value), j).Ok?
    ensures var ty := ToType(BuildContentModel(structure).value);
      Validate(ty, Validate(ty, j).value) == Validate(ty, j)
  {
    var cm := BuildContentModel(structure).value;
    var fields := structure.members[0].1.members;
    forall a, b | 0 <= a < b < |cm.fields| ensures cm.fields[a].0 != cm.fields[b].0 {
      assert cm.fields[a].0 == fields[a].0 && cm.fields[b].0 == fields[b].0;
    }
    ToTypeWellFormed(cm);
    ValidateIdempotent(ToType(cm), j);
  }
}
