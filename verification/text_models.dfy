/** The citation and result records of the text models (`Citation`,
    `ScrapedResult`). The scraper models declare field-for-field identical
    classes, so both are described by the descriptors here. */
module TextModels {
  import opened Wrappers
  import opened Json
  import opened Validation

  const CitationType := TModel("Citation", [
    Field("text", TStr, Required),
    Field("source_url", TStr, Required),
    Field("selector_path", TOptional(TStr), Defaulted(Null)),
    Field("confidence_score", TFloat, Required)
  ])

  const ScrapedResultType := TModel("ScrapedResult", [
    Field("content", TAny, Required),
    Field("citations", TList(CitationType), Required),
    Field("format_type", TStr, Required),
    Field("prompt", TStr, Required),
    Field("url", TStr, Required)
  ])

  /** A citation needs `text`, `source_url` and a numeric `confidence_score`;
      `selector_path` may be absent, null or a string. */
  lemma {:induction false} CitationAccepts(ms: Members)
    ensures Validate(CitationType, Object(ms)).Ok? <==>
      && StrAt(ms, "text")
      && StrAt(ms, "source_url")
      && (Lookup(ms, "selector_path").None? || Lookup(ms, "selector_path").value.Null? || Lookup(ms, "selector_path").value.String?)
      && Lookup(ms, "confidence_score").Some?
      && (Lookup(ms, "confidence_score").value.Float? || Lookup(ms, "confidence_score").value.Int?)
  {
    ModelAccepts(CitationType, ms);
    CitationFields(ms);
    RequiredField(ms, "text", TStr);
    RequiredField(ms, "source_url", TStr);
    DefaultedField(ms, "selector_path", TOptional(TStr), Null);
    RequiredField(ms, "confidence_score", TFloat);
    if Lookup(ms, "text").Some? { LeafAccepts(Lookup(ms, "text").value); }
    if Lookup(ms, "source_url").Some? { LeafAccepts(Lookup(ms, "source_url").value); }
    if Lookup(ms, "selector_path").Some? { LeafAccepts(Lookup(ms, "selector_path").value); }
    if Lookup(ms, "confidence_score").Some? { LeafAccepts(Lookup(ms, "confidence_score").value); }
  }

  lemma {:induction false} CitationFields(ms: Members)
    ensures AllSupplied(ms, CitationType.fields) <==>
      && Supplies(ms, Field("text", TStr, Required))
      && Supplies(ms, Field("source_url", TStr, Required))
      && Supplies(ms, Field("selector_path", TOptional(TStr), Defaulted(Null)))
      && Supplies(ms, Field("confidence_score", TFloat, Required))
  {
    var fs := CitationType.fields;
    assert fs[0] == Field("text", TStr, Required);
    assert fs[1] == Field("source_url", TStr, Required);
    assert fs[2] == Field("selector_path", TOptional(TStr), Defaulted(Null));
    assert fs[3] == Field("confidence_score", TFloat, Required);
    if Supplies(ms, fs[0]) && Supplies(ms, fs[1]) && Supplies(ms, fs[2]) && Supplies(ms, fs[3]) {
      forall k | 0 <= k < |fs| ensures Supplies(ms, fs[k]) {
        if k == 0 {} else if k == 1 {} else if k == 2 {} else {}
      }
    }
  }

  /** An absent `selector_path` is dumped as null. */
  lemma {:induction false} SelectorPathDefault(ms: Members)
    requires Validate(CitationType, Object(ms)).Ok?
    requires Lookup(ms, "selector_path").None?
    ensures Validate(CitationType, Object(ms)).value.members[2] == ("selector_path", Null)
  {
    ModelDump(CitationType, ms);
  }

  /** A textual confidence such as `"high"` is rejected whatever else is
      given. */
  lemma {:induction false} ConfidenceMustBeNumeric(ms: Members, word: string)
    requires Lookup(ms, "confidence_score") == Some(String(word))
    ensures Validate(CitationType, Object(ms)).Err?
  {
    CitationAccepts(ms);
  }

  /** A result needs `content` (any value), a list of valid `citations`, and
      string `format_type`, `prompt` and `url`. */
  lemma {:induction false} ScrapedResultAccepts(ms: Members)
    ensures Validate(ScrapedResultType, Object(ms)).Ok? <==>
      && Lookup(ms, "content").Some?
      && Lookup(ms, "citations").Some?
      && Lookup(ms, "citations").value.Array?
      && (forall k :: 0 <= k < |Lookup(ms, "citations").value.items| ==>
            Validate(CitationType, Lookup(ms, "citations").value.items[k]).Ok?)
      && StrAt(ms, "format_type")
      && StrAt(ms, "prompt")
      && StrAt(ms, "url")
  {
    ModelAccepts(ScrapedResultType, ms);
    ScrapedResultFields(ms);
    RequiredField(ms, "content", TAny);
    RequiredField(ms, "citations", TList(CitationType));
    RequiredField(ms, "format_type", TStr);
    RequiredField(ms, "prompt", TStr);
    RequiredField(ms, "url", TStr);
    if Lookup(ms, "content").Some? { LeafAccepts(Lookup(ms, "content").value); }
    if Lookup(ms, "citations").Some? { ListAccepts(CitationType, Lookup(ms, "citations").value); }
    if Lookup(ms, "format_type").Some? { LeafAccepts(Lookup(ms, "format_type").value); }
    if Lookup(ms, "prompt").Some? { LeafAccepts(Lookup(ms, "prompt").value); }
    if Lookup(ms, "url").Some? { LeafAccepts(Lookup(ms, "url").value); }
  }

  lemma {:induction false} ScrapedResultFields(ms: Members)
    ensures AllSupplied(ms, ScrapedResultType.fields) <==>
      && Supplies(ms, Field("content", TAny, Required))
      && Supplies(ms, Field("citations", TList(CitationType), Required))
      && Supplies(ms, Field("format_type", TStr, Required))
      && Supplies(ms, Field("prompt", TStr, Required))
      && Supplies(ms, Field("url", TStr, Required))
  {
    var fs := ScrapedResultType.fields;
    assert fs[0] == Field("content", TAny, Required);
    assert fs[1] == Field("citations", TList(CitationType), Required);
    assert fs[2] == Field("format_type", TStr, Required);
    assert fs[3] == Field("prompt", TStr, Required);
    assert fs[4] == Field("url", TStr, Required);
    if Supplies(ms, fs[0]) && Supplies(ms, fs[1]) && Supplies(ms, fs[2]) && Supplies(ms, fs[3]) && Supplies(ms, fs[4]) {
      forall k | 0 <= k < |fs| ensures Supplies(ms, fs[k]) {
        if k == 0 {} else if k == 1 {} else if k == 2 {} else if k == 3 {} else {}
      }
    }
  }

  /** An empty citation list is accepted. */
  lemma {:induction false} EmptyCitationsAccepted(content: Json, format: string, prompt: string, url: string)
    ensures Validate(ScrapedResultType, Object([
      ("content", content), ("citations", Array([])), ("format_type", String(format)),
      ("prompt", String(prompt)), ("url", String(url))])).Ok?
  {
    var ms := [
      ("content", content), ("citations", Array([])), ("format_type", String(format)),
      ("prompt", String(prompt)), ("url", String(url))];
    assert UniqueKeys(ms);
    LookupAt(ms, 0);
    LookupAt(ms, 1);
    LookupAt(ms, 2);
    LookupAt(ms, 3);
    LookupAt(ms, 4);
    ScrapedResultAccepts(ms);
  }
}
