/** The request record of the scraper models (`ScrapeRequest`). Its
    `Citation` and `ScrapedResult` are field-for-field those of the text
    models and are described by `TextModels.CitationType` and
    `TextModels.ScrapedResultType`. */
module ScraperModels {
  import opened Wrappers
  import opened Json
  import opened Validation

  /** `url` is a string here: the URL syntax check of `AnyUrl` is not part of
      this model. */
  const ScrapeRequestType := TModel("ScrapeRequest", [
    Field("url", TStr, Required),
    Field("prompt", TStr, Required),
    Field("additional_context", TOptional(TDict), Defaulted(Null))
  ])

  /** A request needs a string `url` and a string `prompt`;
      `additional_context` may be absent, null or a mapping. */
  lemma {:induction false} ScrapeRequestAccepts(ms: Members)
    ensures Validate(ScrapeRequestType, Object(ms)).Ok? <==>
      && StrAt(ms, "url")
      && StrAt(ms, "prompt")
      && (Lookup(ms, "additional_context").None? || Lookup(ms, "additional_context").value.Null?
          || Lookup(ms, "additional_context").value.Object?)
  {
    ModelAccepts(ScrapeRequestType, ms);
    ScrapeRequestFields(ms);
    RequiredField(ms, "url", TStr);
    RequiredField(ms, "prompt", TStr);
    DefaultedField(ms, "additional_context", TOptional(TDict), Null);
    if Lookup(ms, "url").Some? { LeafAccepts(Lookup(ms, "url").value); }
    if Lookup(ms, "prompt").Some? { LeafAccepts(Lookup(ms, "prompt").value); }
    if Lookup(ms, "additional_context").Some? { LeafAccepts(Lookup(ms, "additional_context").value); }
  }

  lemma {:induction false} ScrapeRequestFields(ms: Members)
    ensures AllSupplied(ms, ScrapeRequestType.fields) <==>
      && Supplies(ms, Field("url", TStr, Required))
      && Supplies(ms, Field("prompt", TStr, Required))
      && Supplies(ms, Field("additional_context", TOptional(TDict), Defaulted(Null)))
  {
    var fs := ScrapeRequestType.fields;
    assert fs[0] == Field("url", TStr, Required);
    assert fs[1] == Field("prompt", TStr, Required);
    assert fs[2] == Field("additional_context", TOptional(TDict), Defaulted(Null));
    if Supplies(ms, fs[0]) && Supplies(ms, fs[1]) && Supplies(ms, fs[2]) {
      forall k | 0 <= k < |fs| ensures Supplies(ms, fs[k]) {
        if k == 0 {} else if k == 1 {} else {}
      }
    }
  }

  /** An absent `additional_context` is dumped as null. */
  lemma {:induction false} AdditionalContextDefault(ms: Members)
    requires Validate(ScrapeRequestType, Object(ms)).Ok?
    requires Lookup(ms, "additional_context").None?
    ensures Validate(ScrapeRequestType, Object(ms)).value.members[2] == ("additional_context", Null)
  {
    ModelDump(ScrapeRequestType, ms);
  }
}
