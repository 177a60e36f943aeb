/** The browser scraper around the agent (`WebScraper`): its construction
    checks, the actions the agent starts with, and what `scrape` makes of the
    agent's final text: validation against the output schema, a second try
    with the text wrapped as `{"outputs": [...]}`, and the result dict.

    The agent run itself is not modelled: its final text is an input. */
module BrowserScraper {
  import opened Wrappers
  import opened Json
  import opened PyText
  import opened Validation
  import opened Tasks
  import OutputModels

  /** A constructed scraper: what `scrape` and the agent read back. */
  datatype Scraper = Scraper(
    taskString: string,
    url: Json,
    prompt: Json,
    contextText: string,
    taskTemplate: string,
    outputFormat: Type,
    initialActions: seq<Json>)

  /** Why construction stops: a failed `assert` on the output format or the
      url, or the task cannot be built. */
  datatype InitError = NoOutputFormat | NoUrl | TaskFailed(error: TaskError)

  /** The agent's message context: `str(context)`, or `"None provided"` when
      the context is falsy. */
  function ContextText(context: Json): (r: string)
    ensures !Truthy(context) ==> r == "None provided"
    ensures Truthy(context) ==> r == Str(context)
  {
    if Truthy(context) then Str(context) else "None provided"
  }

  /** `{"open_tab": {"url": url}}`. */
  function OpenTab(url: Json): Json {
    Object([("open_tab", Object([("url", url)]))])
  }

  /** The agent first opens the url, then runs the caller's actions in
      order. */
  function InitialActions(url: Json, actions: Option<seq<Json>>): (r: seq<Json>)
    ensures |r| >= 1 && r[0] == OpenTab(url)
    ensures actions.None? ==> |r| == 1
    ensures actions.Some? ==> r[1..] == actions.value
  {
    [OpenTab(url)] + (if actions.Some? then actions.value else [])
  }

  /** `WebScraper.__init__`: the output format model (if any) and the url
      must be given and truthy, in that order; then the task is built from
      the template. */
  function Init(url: Json, prompt: Json, context: Json, taskTemplate: string,
                actions: Option<seq<Json>>, outputFormat: Option<Type>): (r: Result<Scraper, InitError>)
    ensures outputFormat.None? ==> r == Err(NoOutputFormat)
    ensures outputFormat.Some? && !Truthy(url) ==> r == Err(NoUrl)
    ensures r.Ok? <==> outputFormat.Some? && Truthy(url) && FromTemplate(prompt, taskTemplate).Ok?
    ensures r.Ok? ==>
      && r.value.taskString == FromTemplate(prompt, taskTemplate).value.task
      && r.value.outputFormat == outputFormat.value
      && r.value.contextText == ContextText(context)
      && r.value.initialActions == InitialActions(url, actions)
      && r.value.url == url && r.value.prompt == prompt && r.value.taskTemplate == taskTemplate
  {
    if outputFormat.None? then Err(NoOutputFormat)
    else if !Truthy(url) then Err(NoUrl)
    else
      match FromTemplate(prompt, taskTemplate)
      case Err(e) => Err(TaskFailed(e))
      case Ok(task) =>
        Ok(Scraper(TaskString(task), url, prompt, ContextText(context), taskTemplate,
                   outputFormat.value, InitialActions(url, actions)))
  }

  /** `{"outputs": [o]}`. */
  function Wrap(o: Json): Json {
    Object([("outputs", Array([o]))])
  }

  /** The two-stage coercion: validate the text as it is; if that fails,
      parse it, wrap it and validate the wrapper; if that fails too, or the
      text does not parse, report the first error. */
  function Coerce(parse: Parser, ty: Type, text: string): (r: Result<Json, Issues>)
    ensures ValidateText(parse, ty, text).Ok? ==> r == ValidateText(parse, ty, text)
    ensures ValidateText(parse, ty, text).Err? && parse(text).Ok? && Validate(ty, Wrap(parse(text).value)).Ok? ==>
      r == Validate(ty, Wrap(parse(text).value))
    ensures r.Err? <==>
      ValidateText(parse, ty, text).Err? && (parse(text).Err? || Validate(ty, Wrap(parse(text).value)).Err?)
    ensures r.Err? ==> r.error == ValidateText(parse, ty, text).error
    ensures r.Ok? && ty.TModel? ==> r.value.Object?
  {
    var direct := ValidateText(parse, ty, text);
    if direct.Ok? then direct
    else
      match parse(text)
      case Err(_) => Err(direct.error)
      case Ok(o) =>
        match Validate(ty, Wrap(o))
        case Ok(v) => Ok(v)
        case Err(_) => Err(direct.error)
  }

  /** The result dict: the dumped model with `task_template` and then
      `prompt` assigned into it. */
  function Assemble(dumped: Members, taskTemplate: string, prompt: Json): (r: Members)
    ensures Lookup(r, "task_template") == Some(String(taskTemplate))
    ensures Lookup(r, "prompt") == Some(prompt)
    ensures forall k :: k != "task_template" && k != "prompt" ==> Lookup(r, k) == Lookup(dumped, k)
  {
    Put(Put(dumped, "task_template", String(taskTemplate)), "prompt", prompt)
  }

  /** The dumped keys keep their places and at most the two new keys follow
      them. */
  lemma AssembleKeys(dumped: Members, taskTemplate: string, prompt: Json)
    ensures var ks := Keys(Assemble(dumped, taskTemplate, prompt));
      |dumped| <= |ks| <= |dumped| + 2 && ks[..|dumped|] == Keys(dumped)
  {
    var t := Put(dumped, "task_template", String(taskTemplate));
    var r := Put(t, "prompt", prompt);
    PutKeysPrefix(dumped, "task_template", String(taskTemplate));
    PutKeysPrefix(t, "prompt", prompt);
    assert Keys(r)[..|dumped|] == Keys(r)[..|t|][..|dumped|];
    assert Keys(t)[..|dumped|] == Keys(dumped);
  }

  /** Assembling never duplicates a key. */
  lemma AssembleKeepsKeysUnique(dumped: Members, taskTemplate: string, prompt: Json)
    requires UniqueKeys(dumped)
    ensures UniqueKeys(Assemble(dumped, taskTemplate, prompt))
  {
    var t := Put(dumped, "task_template", String(taskTemplate));
    PutKeepsKeysUnique(dumped, "task_template", String(taskTemplate));
    PutKeepsKeysUnique(t, "prompt", prompt);
  }

  /** `_create_empty_result`. */
  function EmptyResult(prompt: Json, url: Json, taskTemplate: string): Members {
    [("content", String("")), ("format_type", String("text")), ("prompt", prompt),
     ("url", url), ("summary", String("")), ("task_template", String(taskTemplate))]
  }

  /** `scrape` after the agent has run and returned its final text (`None`
      when it produced none). */
  function Scrape(s: Scraper, parse: Parser, finalText: Option<string>): (r: Result<Members, Issues>)
    requires s.outputFormat.TModel?
    ensures (finalText.None? || finalText.value == "") ==> r == Ok(EmptyResult(s.prompt, s.url, s.taskTemplate))
    ensures finalText.Some? && finalText.value != "" ==>
      var c := Coerce(parse, s.outputFormat, finalText.value);
      && (c.Err? ==> r == Err(c.error))
      && (c.Ok? ==> r == Ok(Assemble(c.value.members, s.taskTemplate, s.prompt)))
  {
    if finalText.None? || finalText.value == "" then Ok(EmptyResult(s.prompt, s.url, s.taskTemplate))
    else
      var parsed :- Coerce(parse, s.outputFormat, finalText.value);
      Ok(Assemble(parsed.members, s.taskTemplate, s.prompt))
  }

  /** With the list envelope as the schema, a text holding a single valid
      `ScraperOutput` object is accepted on the second try, and the result
      has that object, dumped, as its only output. */
  lemma WrappedSingleOutput(parse: Parser, content: Type, text: string)
    requires ValidateText(parse, OutputModels.ScraperOutputListType(content), text).Err?
    requires parse(text).Ok?
    requires Validate(OutputModels.ScraperOutputType(content), parse(text).value).Ok?
    ensures Coerce(parse, OutputModels.ScraperOutputListType(content), text) ==
      Ok(Object([("outputs", Array([Validate(OutputModels.ScraperOutputType(content), parse(text).value).value]))]))
  {
    var ty := OutputModels.ScraperOutputListType(content);
    var o := parse(text).value;
    var ms := [("outputs", Array([o]))];
    var f := ty.fields[0];
    LookupAt(ms, 0);
    ListAccepts(OutputModels.ScraperOutputType(content), Array([o]));
    assert Supplies(ms, f);
    ModelAccepts(ty, ms);
    assert AllSupplied(ms, ty.fields);
    ModelDump(ty, ms);
    var d := Validate(OutputModels.ScraperOutputType(content), o).value;
    var l := Validate(TList(OutputModels.ScraperOutputType(content)), Array([o])).value;
    assert l.items == [d];
    assert Filled(ms, f) == l == Array([d]);
    var out := Validate(ty, Wrap(o)).value.members;
    assert out == [out[0]];
    assert out[0] == ("outputs", Array([d]));
  }

  /** Whatever is coerced is a canonical dump of the schema. */
  lemma CoercedConforms(parse: Parser, ty: Type, text: string)
    requires WellFormed(ty)
    requires Coerce(parse, ty, text).Ok?
    ensures Conforms(ty, Coerce(parse, ty, text).value)
  {
    if ValidateText(parse, ty, text).Ok? {
      ValidatedConforms(ty, parse(text).value);
    } else {
      ValidatedConforms(ty, Wrap(parse(text).value));
    }
  }

  /** The empty result has exactly six keys, in this order, whatever the
      schema: no `outputs` key. */
  lemma EmptyResultShape(prompt: Json, url: Json, taskTemplate: string)
    ensures Keys(EmptyResult(prompt, url, taskTemplate)) ==
      ["content", "format_type", "prompt", "url", "summary", "task_template"]
    ensures UniqueKeys(EmptyResult(prompt, url, taskTemplate))
    ensures !HasKey(EmptyResult(prompt, url, taskTemplate), "outputs")
  {
    EmptyResultKeys(prompt, url, taskTemplate);
    EmptyResultUnique(prompt, url, taskTemplate);
    var names := Keys(EmptyResult(prompt, url, taskTemplate));
    assert forall i :: 0 <= i < |names| ==> |names[i]| == [7, 11, 6, 3, 7, 13][i];
    assert "outputs"[0] != names[0][0] && "outputs"[0] != names[4][0];
  }

  lemma EmptyResultKeys(prompt: Json, url: Json, taskTemplate: string)
    ensures Keys(EmptyResult(prompt, url, taskTemplate)) ==
      ["content", "format_type", "prompt", "url", "summary", "task_template"]
  {
    var e := EmptyResult(prompt, url, taskTemplate);
    var names := ["content", "format_type", "prompt", "url", "summary", "task_template"];
    assert forall i :: 0 <= i < |e| ==> Keys(e)[i] == names[i];
  }

  /** The names differ in length, except `content` and `summary`, which
      differ in their first letter. */
  lemma EmptyResultUnique(prompt: Json, url: Json, taskTemplate: string)
    ensures UniqueKeys(EmptyResult(prompt, url, taskTemplate))
  {
    var e := EmptyResult(prompt, url, taskTemplate);
    assert forall i :: 0 <= i < |e| ==> |e[i].0| == [7, 11, 6, 3, 7, 13][i];
    assert e[0].0[0] != e[4].0[0];
  }
}
