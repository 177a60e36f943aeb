/** The output envelope the browser agent must fill (`ScraperOutput`,
    `ScraperOutputList`, `Citation` of the output-format models). The content
    record type is built once, from the configuration, when the models are
    defined. */
module OutputModels {
  import opened Wrappers
  import opened Json
  import opened Validation
  import ContentSchema

  /** `ScraperOutput` over a given content record type. */
  function ScraperOutputType(content: Type): Type {
    TModel("ScraperOutput", [
      Field("content", TList(content), Required),
      Field("format_type", TStr, Defaulted(String("text"))),
      Field("summary", TOptional(TStr), Defaulted(Null))
    ])
  }

  /** `ScraperOutputList`: a required list of outputs. */
  function ScraperOutputListType(content: Type): Type {
    TModel("ScraperOutputList", [Field("outputs", TList(ScraperOutputType(content)), Required)])
  }

  const CitationType := TModel("Citation", [
    Field("source_text", TStr, Required),
    Field("location", TStr, Required),
    Field("location_url", TStr, Required)
  ])

  /** The output schema given to the agent: the list envelope around the
      configured content record, or the error that stops the models from
      being defined. */
  function OutputFormat(structure: Json): (r: Result<Type, ContentSchema.SchemaError>)
    ensures r.Ok? <==> ContentSchema.BuildContentModel(structure).Ok?
    ensures r.Ok? ==> r == Ok(ScraperOutputListType(ContentSchema.ToType(ContentSchema.BuildContentModel(structure).value)))
    ensures !Truthy(structure) ==> r == Ok(ScraperOutputListType(ContentSchema.ToType(ContentSchema.DefaultModel)))
  {
    var cm :- ContentSchema.BuildContentModel(structure);
    Ok(ScraperOutputListType(ContentSchema.ToType(cm)))
  }

  /** `ScraperOutput` accepts an object exactly when `content` is present and
      is a list of valid content records, `format_type` is absent or a
      string, and `summary` is absent, null or a string. */
  lemma {:induction false} ScraperOutputAccepts(content: Type, ms: Members)
    ensures Validate(ScraperOutputType(content), Object(ms)).Ok? <==>
      && ContentOk(content, ms)
      && (Lookup(ms, "format_type").None? || Lookup(ms, "format_type").value.String?)
      && (Lookup(ms, "summary").None? || Lookup(ms, "summary").value.Null? || Lookup(ms, "summary").value.String?)
  {
    ModelAccepts(ScraperOutputType(content), ms);
    ScraperOutputFields(content, ms);
    RequiredField(ms, "content", TList(content));
    DefaultedField(ms, "format_type", TStr, String("text"));
    DefaultedField(ms, "summary", TOptional(TStr), Null);
    if Lookup(ms, "content").Some? { ListAccepts(content, Lookup(ms, "content").value); }
    if Lookup(ms, "format_type").Some? { LeafAccepts(Lookup(ms, "format_type").value); }
    if Lookup(ms, "summary").Some? { LeafAccepts(Lookup(ms, "summary").value); }
  }

  lemma {:induction false} ScraperOutputFields(content: Type, ms: Members)
    ensures AllSupplied(ms, ScraperOutputType(content).fields) <==>
      && Supplies(ms, Field("content", TList(content), Required))
      && Supplies(ms, Field("format_type", TStr, Defaulted(String("text"))))
      && Supplies(ms, Field("summary", TOptional(TStr), Defaulted(Null)))
  {
    var fs := ScraperOutputType(content).fields;
    assert fs[0] == Field("content", TList(content), Required);
    assert fs[1] == Field("format_type", TStr, Defaulted(String("text")));
    assert fs[2] == Field("summary", TOptional(TStr), Defaulted(Null));
    if Supplies(ms, fs[0]) && Supplies(ms, fs[1]) && Supplies(ms, fs[2]) {
      forall k | 0 <= k < |fs| ensures Supplies(ms, fs[k]) {
        if k == 0 {} else if k == 1 {} else {}
      }
    }
  }

  /** `content` is present and is a list of valid content records. */
  predicate ContentOk(content: Type, ms: Members) {
    && Lookup(ms, "content").Some?
    && Lookup(ms, "content").value.Array?
    && forall k :: 0 <= k < |Lookup(ms, "content").value.items| ==>
         Validate(content, Lookup(ms, "content").value.items[k]).Ok?
  }

  /** A dumped `ScraperOutput` has exactly the keys `content`, `format_type`
      and `summary`, in that order; an absent `format_type` is dumped as
      `"text"` and an absent `summary` as null. */
  lemma {:induction false} ScraperOutputDefaults(content: Type, ms: Members)
    requires Validate(ScraperOutputType(content), Object(ms)).Ok?
    ensures var out := Validate(ScraperOutputType(content), Object(ms)).value.members;
      && |out| == 3
      && out[0].0 == "content" && out[1].0 == "format_type" && out[2].0 == "summary"
      && (Lookup(ms, "format_type").None? ==> out[1].1 == String("text"))
      && (Lookup(ms, "summary").None? ==> out[2].1 == Null)
  {
    ModelDump(ScraperOutputType(content), ms);
  }

  /** The envelope accepts an object exactly when its `outputs` key holds a
      list every element of which `ScraperOutput` accepts. */
  lemma {:induction false} ScraperOutputListAccepts(content: Type, ms: Members)
    ensures Validate(ScraperOutputListType(content), Object(ms)).Ok? <==>
      && Lookup(ms, "outputs").Some?
      && Lookup(ms, "outputs").value.Array?
      && forall k :: 0 <= k < |Lookup(ms, "outputs").value.items| ==>
           Validate(ScraperOutputType(content), Lookup(ms, "outputs").value.items[k]).Ok?
  {
    ModelAccepts(ScraperOutputListType(content), ms);
    OutputsField(content, ms);
    RequiredField(ms, "outputs", TList(ScraperOutputType(content)));
    if Lookup(ms, "outputs").Some? {
      ListAccepts(ScraperOutputType(content), Lookup(ms, "outputs").value);
    }
  }

  lemma {:induction false} OutputsField(content: Type, ms: Members)
    ensures AllSupplied(ms, ScraperOutputListType(content).fields) <==>
      Supplies(ms, Field("outputs", TList(ScraperOutputType(content)), Required))
  {
    var fs := ScraperOutputListType(content).fields;
    assert fs[0] == Field("outputs", TList(ScraperOutputType(content)), Required);
    if Supplies(ms, fs[0]) {
      forall k | 0 <= k < |fs| ensures Supplies(ms, fs[k]) {
      }
    }
  }

  /** The output citation needs all three strings; leaving any one out is an
      error. */
  lemma {:induction false} CitationAccepts(ms: Members)
    ensures Validate(CitationType, Object(ms)).Ok? <==>
      StrAt(ms, "source_text") && StrAt(ms, "location") && StrAt(ms, "location_url")
  {
    ModelAccepts(CitationType, ms);
    CitationFields(ms);
    RequiredField(ms, "source_text", TStr);
    RequiredField(ms, "location", TStr);
    RequiredField(ms, "location_url", TStr);
    if Lookup(ms, "source_text").Some? { LeafAccepts(Lookup(ms, "source_text").value); }
    if Lookup(ms, "location").Some? { LeafAccepts(Lookup(ms, "location").value); }
    if Lookup(ms, "location_url").Some? { LeafAccepts(Lookup(ms, "location_url").value); }
  }

  lemma {:induction false} CitationFields(ms: Members)
    ensures AllSupplied(ms, CitationType.fields) <==>
      && Supplies(ms, Field("source_text", TStr, Required))
      && Supplies(ms, Field("location", TStr, Required))
      && Supplies(ms, Field("location_url", TStr, Required))
  {
    var fs := CitationType.fields;
    assert fs[0] == Field("source_text", TStr, Required);
    assert fs[1] == Field("location", TStr, Required);
    assert fs[2] == Field("location_url", TStr, Required);
    if Supplies(ms, fs[0]) && Supplies(ms, fs[1]) && Supplies(ms, fs[2]) {
      forall k | 0 <= k < |fs| ensures Supplies(ms, fs[k]) {
        if k == 0 {} else if k == 1 {} else {}
      }
    }
  }
}
