/** `Task.from_template`: the agent's task text, rendered from the current
    catalogue. Only `default` and `tabular_extraction` have a rendering
    branch; for a tabular prompt, the structured `no_pages` and `filters`
    values are first turned into sentences. */
module Tasks {
  import opened Wrappers
  import opened Json
  import opened PyText
  import opened StrFormat
  import opened Catalogue
  import opened TaskTemplates

  datatype Task = Task(task: string, templateName: string)

  /** Why no task is built: the tabular prompt is not a dict (TypeError), a
      key is missing (KeyError), the format string is rejected, or the name
      has no rendering branch so `task_str` is never bound
      (UnboundLocalError). */
  datatype TaskError =
    | NotSubscriptable(prompt: Json)
    | KeyMissing(key: string)
    | BadFormat(error: FormatError)
    | TaskUnbound(name: string)

  /** The keys of a tabular prompt, in the order the code reads them. */
  const PromptKeys: seq<string> := ["filters", "no_pages", "website", "data_category", "data_points", "url"]

  const AllPages := PaginationLead + "all pages and extract all data"
  const NoPagination := PagesNumber + "There should be no pagination"

  /** The pagination sentence for a `no_pages` value. */
  function PagesSentence(noPages: Json): (r: string)
    ensures noPages == String("all") ==> r == AllPages
    ensures noPages.Int? || noPages.Bool? ==>
      r == PaginationLead + "at least the first " + Str(noPages) + " pages and extract all data"
    ensures !(noPages == String("all") || noPages.Int? || noPages.Bool?) ==> r == NoPagination
  {
    if noPages == String("all") then AllPages
    // isinstance(v, int) also holds for booleans
    else if noPages.Int? || noPages.Bool? then
      PaginationLead + "at least the first " + Str(noPages) + " pages and extract all data"
    else NoPagination
  }

  /** The filter sentence for a `filters` value: empty for `None`. */
  function FilterSentence(filters: Json): (r: string)
    ensures filters.Null? <==> r == ""
    ensures !filters.Null? ==> r == FiltersLead + Str(filters) + " before extraction"
  {
    if filters.Null? then ""
    else FiltersLead + Str(filters) + " before extraction"
  }

  /** `prompt[key]`. */
  function Key(ms: Members, key: string): (r: Result<Json, TaskError>)
    ensures r.Ok? <==> HasKey(ms, key)
    ensures r.Ok? ==> Some(r.value) == Lookup(ms, key)
    ensures r.Err? ==> r.error == KeyMissing(key)
  {
    match Lookup(ms, key)
    case Some(v) => Ok(v)
    case None => Err(KeyMissing(key))
  }

  /** The keyword arguments of the tabular `format` call. */
  function TabularArgs(website: Json, category: Json, points: Json, noPages: Json, filters: Json, url: Json)
    : (args: map<string, string>)
    ensures args.Keys == {"website", "data_category", "url", "data_points", "no_pages", "filters"}
    ensures args["no_pages"] == PagesSentence(noPages) && args["filters"] == FilterSentence(filters)
    ensures args["website"] == Str(website) && args["url"] == Str(url)
    ensures args["data_category"] == Str(category) && args["data_points"] == Str(points)
  {
    map["website" := Str(website), "data_category" := Str(category), "data_points" := Str(points),
        "no_pages" := PagesSentence(noPages), "filters" := FilterSentence(filters), "url" := Str(url)]
  }

  function FormatTask(segs: seq<Segment>, args: map<string, string>, name: string): (r: Result<Task, TaskError>)
    ensures r.Ok? ==> r.value.templateName == name
  {
    match Format(Render(segs), args)
    case Ok(s) => Ok(Task(s, name))
    case Err(e) => Err(BadFormat(e))
  }

  /** `prompt[key]` for each key in turn: the values read, or the first
      key that is missing. */
  function Gather(ms: Members, keys: seq<string>): (r: Result<seq<Json>, TaskError>)
    ensures r.Ok? <==> forall i :: 0 <= i < |keys| ==> HasKey(ms, keys[i])
    ensures r.Ok? ==> |r.value| == |keys| && forall i :: 0 <= i < |keys| ==> Lookup(ms, keys[i]) == Some(r.value[i])
    ensures r.Err? ==> exists i :: FirstAbsent(ms, keys, i) && r.error == KeyMissing(keys[i])
    decreases |keys|
  {
    if keys == [] then Ok([])
    else
      var v :- Key(ms, keys[0]);
      var rest := Gather(ms, keys[1..]);
      if rest.Err? then
        var i :| FirstAbsent(ms, keys[1..], i) && rest.error == KeyMissing(keys[1..][i]);
        assert FirstAbsent(ms, keys, i + 1);
        Err(rest.error)
      else
        Ok([v] + rest.value)
  }

  /** `keys[i]` is the first of `keys` that `ms` lacks. */
  predicate FirstAbsent(ms: Members, keys: seq<string>, i: int) {
    && 0 <= i < |keys|
    && !HasKey(ms, keys[i])
    && forall j :: 0 <= j < i ==> HasKey(ms, keys[j])
  }

  /** The `tabular_extraction` branch, given the template's format: the
      six keys are read in order, then formatted in. */
  function Tabular(prompt: Json, segs: seq<Segment>, name: string): (r: Result<Task, TaskError>)
    ensures r.Ok? ==> r.value.templateName == name
  {
    if !prompt.Object? then Err(NotSubscriptable(prompt))
    else
      var vs :- Gather(prompt.members, PromptKeys);
      var filters, noPages, website, category, points, url := vs[0], vs[1], vs[2], vs[3], vs[4], vs[5];
      FormatTask(segs, TabularArgs(website, category, points, noPages, filters, url), name)
  }

  /** `Task.from_template(prompt, template_name)`. */
  function FromTemplate(prompt: Json, name: string): (r: Result<Task, TaskError>)
    ensures r.Ok? ==> r.value.templateName == name
    ensures name != "default" && name != "tabular_extraction" ==> r == Err(TaskUnbound(name))
  {
    var template := GetTaskTemplate(name);
    if name == "default" then
      FormatTask(template.taskFormat, map["prompt" := Str(prompt)], name)
    else if name == "tabular_extraction" then
      Tabular(prompt, template.taskFormat, name)
    else Err(TaskUnbound(name))
  }

  /** `get_task_string`. */
  function TaskString(t: Task): string {
    t.task
  }

  /** `Task.get_available_templates`. */
  function TaskTemplateNames(): (ns: seq<string>)
    ensures ns == ["default", "tabular_extraction"]
  {
    AvailableTemplates()
  }

  /** Formatting a well-formed template whose holes all have arguments
      yields the filled text. */
  lemma FormatTaskFills(segs: seq<Segment>, args: map<string, string>, name: string)
    requires WellFormed(segs) && Placeholders(segs) <= args.Keys
    ensures FormatTask(segs, args, name) == Ok(Task(Fill(segs, args).value, name))
  {
    FormatRender(segs, args);
  }

  /** The template both rendering branches use is the catalogue entry of
      their own name. */
  lemma TemplateFormats()
    ensures GetTaskTemplate("default").taskFormat == DefaultSegments
    ensures GetTaskTemplate("tabular_extraction").taskFormat == TabularSegments
  {
  }

  lemma TabularBranch(prompt: Json)
    ensures FromTemplate(prompt, "tabular_extraction") == Tabular(prompt, TabularSegments, "tabular_extraction")
  {
    TemplateFormats();
  }

  lemma DefaultFill(p: string)
    ensures Fill(DefaultSegments, map["prompt" := p]) == Ok(DefaultSegments[0].text + p + DefaultSegments[2].text)
  {
    DefaultSlots();
    OneHoleFill(DefaultSegments, "prompt", p);
  }

  /** The default template is one hole between two literal texts. */
  lemma DefaultSlots()
    ensures |DefaultSegments| == 3
    ensures DefaultSegments[0].Lit? && DefaultSegments[1] == Hole("prompt") && DefaultSegments[2].Lit?
  {
  }

  /** Filling a single hole between two texts puts the argument between them. */
  lemma OneHoleFill(s: seq<Segment>, n: string, p: string)
    requires |s| == 3 && s[0].Lit? && s[1] == Hole(n) && s[2].Lit?
    ensures Fill(s, map[n := p]) == Ok(s[0].text + p + s[2].text)
  {
    var args := map[n := p];
    assert Placeholders(s) == {n} by {
      PlaceholdersSpec(s, n);
      forall m | m in Placeholders(s) ensures m == n {
        PlaceholdersSpec(s, m);
      }
    }
    FillAt(s, args, 1);
    assert s[..1] == [s[0]];
    assert s[2..] == [s[2]];
    assert Fill([s[0]], args).value == s[0].text;
    assert Fill([s[2]], args).value == s[2].text;
  }

  /** For `default`, the task is the default template with the prompt's
      string form in place of `{prompt}`, whatever the prompt is. */
  lemma DefaultTask(prompt: Json)
    ensures FromTemplate(prompt, "default") ==
      Ok(Task(DefaultSegments[0].text + Str(prompt) + DefaultSegments[2].text, "default"))
  {
    var args := map["prompt" := Str(prompt)];
    TemplateFormats();
    DefaultPlaceholders();
    FormatTaskFills(DefaultSegments, args, "default");
    DefaultFill(Str(prompt));
  }

  /** The prompt has every key the tabular branch reads. */
  predicate HasAllKeys(ms: Members) {
    && HasKey(ms, "filters") && HasKey(ms, "no_pages") && HasKey(ms, "website")
    && HasKey(ms, "data_category") && HasKey(ms, "data_points") && HasKey(ms, "url")
  }

  /** `prompt[key]` for a key that is present. */
  function Arg(ms: Members, key: string): Json
    requires HasKey(ms, key)
  {
    Lookup(ms, key).value
  }

  /** The tabular format arguments a complete prompt gives. */
  function PromptArgs(ms: Members): map<string, string>
    requires HasAllKeys(ms)
  {
    TabularArgs(Arg(ms, "website"), Arg(ms, "data_category"), Arg(ms, "data_points"),
                Arg(ms, "no_pages"), Arg(ms, "filters"), Arg(ms, "url"))
  }

  /** A complete tabular prompt yields the tabular template filled with its
      values and the two sentences. */
  lemma TabularTask(ms: Members)
    requires HasAllKeys(ms)
    ensures Fill(TabularSegments, PromptArgs(ms)).Ok?
    ensures FromTemplate(Object(ms), "tabular_extraction") ==
      Ok(Task(Fill(TabularSegments, PromptArgs(ms)).value, "tabular_extraction"))
  {
    TabularBranch(Object(ms));
    TabularPlaceholders();
    TabularWellFormed();
    FormatTaskFills(TabularSegments, PromptArgs(ms), "tabular_extraction");
  }

  /** A tabular prompt fails exactly when it is not a dict or lacks a key;
      the key reported is the first missing one in reading order. */
  lemma TabularFailure(prompt: Json)
    ensures FromTemplate(prompt, "tabular_extraction").Ok? <==> prompt.Object? && HasAllKeys(prompt.members)
    ensures !prompt.Object? ==> FromTemplate(prompt, "tabular_extraction") == Err(NotSubscriptable(prompt))
    ensures prompt.Object? && !HasAllKeys(prompt.members) ==>
      exists i :: FirstAbsent(prompt.members, PromptKeys, i) && FromTemplate(prompt, "tabular_extraction") == Err(KeyMissing(PromptKeys[i]))
  {
    TabularBranch(prompt);
    if prompt.Object? && HasAllKeys(prompt.members) {
      TabularTask(prompt.members);
    } else if prompt.Object? {
      MissingKeyFails(prompt.members, TabularSegments, "tabular_extraction");
    }
  }

  lemma MissingKeyFails(ms: Members, segs: seq<Segment>, name: string)
    requires !HasAllKeys(ms)
    ensures exists i :: FirstAbsent(ms, PromptKeys, i) && Tabular(Object(ms), segs, name) == Err(KeyMissing(PromptKeys[i]))
  {
    AllKeys(ms);
  }

  /** The six conjuncts of `HasAllKeys` are the six prompt keys. */
  lemma AllKeys(ms: Members)
    ensures HasAllKeys(ms) <==> forall i :: 0 <= i < |PromptKeys| ==> HasKey(ms, PromptKeys[i])
  {
    PromptKeyNames();
    if HasAllKeys(ms) {
      forall i | 0 <= i < |PromptKeys| ensures HasKey(ms, PromptKeys[i]) {
        if i == 0 {} else if i == 1 {} else if i == 2 {} else if i == 3 {} else if i == 4 {} else {}
      }
    } else {
      if !HasKey(ms, "filters") { assert !HasKey(ms, PromptKeys[0]); }
      else if !HasKey(ms, "no_pages") { assert !HasKey(ms, PromptKeys[1]); }
      else if !HasKey(ms, "website") { assert !HasKey(ms, PromptKeys[2]); }
      else if !HasKey(ms, "data_category") { assert !HasKey(ms, PromptKeys[3]); }
      else if !HasKey(ms, "data_points") { assert !HasKey(ms, PromptKeys[4]); }
      else { assert !HasKey(ms, PromptKeys[5]); }
    }
  }

  lemma PromptKeyNames()
    ensures |PromptKeys| == 6
    ensures PromptKeys[0] == "filters" && PromptKeys[1] == "no_pages" && PromptKeys[2] == "website"
    ensures PromptKeys[3] == "data_category" && PromptKeys[4] == "data_points" && PromptKeys[5] == "url"
  {
  }

  /** The sentences are substituted as they are, so the template's own text
      around `{no_pages}` ("navigate through at least the first ... pages and
      extract all data") and around `{filters}` stays around them. */
  lemma PagesSentenceInTask(ms: Members)
    requires HasAllKeys(ms)
    ensures FromTemplate(Object(ms), "tabular_extraction").Ok?
    ensures Occurs(TabularPagesLead + PagesSentence(Arg(ms, "no_pages")) + TabularFiltersLead,
                   FromTemplate(Object(ms), "tabular_extraction").value.task)
  {
    TabularTask(ms);
    var t := FromTemplate(Object(ms), "tabular_extraction").value.task;
    assert t == Fill(TabularSegments, PromptArgs(ms)).value;
    PagesInFill(ms);
  }

  /** Likewise for the filter sentence. */
  lemma FilterSentenceInTask(ms: Members)
    requires HasAllKeys(ms)
    ensures FromTemplate(Object(ms), "tabular_extraction").Ok?
    ensures Occurs(TabularFiltersLead + FilterSentence(Arg(ms, "filters")) + TabularClosing,
                   FromTemplate(Object(ms), "tabular_extraction").value.task)
  {
    TabularTask(ms);
    var t := FromTemplate(Object(ms), "tabular_extraction").value.task;
    assert t == Fill(TabularSegments, PromptArgs(ms)).value;
    FiltersInFill(ms);
  }

  /** Every pagination sentence opens with the line's own number. */
  lemma PagesNumbered(noPages: Json)
    ensures |PagesSentence(noPages)| >= |PagesNumber|
    ensures PagesSentence(noPages) == PagesNumber + PagesSentence(noPages)[|PagesNumber|..]
  {
  }

  /** Every filter sentence opens with the fifth line's lead-in. */
  lemma FiltersNumbered(filters: Json)
    requires !filters.Null?
    ensures |FilterSentence(filters)| >= |FiltersLead|
    ensures FilterSentence(filters) == FiltersLead + FilterSentence(filters)[|FiltersLead|..]
  {
  }

  /** As written, the template's fourth line already reads "4. If
      pagination exists, navigate through at least the first " before
      `{no_pages}`, and the sentence put there starts over with "4. ": the
      numbered lead-in is repeated inside the line, whatever `no_pages` is. */
  lemma PaginationLeadRepeated(ms: Members)
    requires HasAllKeys(ms)
    ensures FromTemplate(Object(ms), "tabular_extraction").Ok?
    ensures Occurs(PaginationLead + "at least the first " + PagesNumber,
                   FromTemplate(Object(ms), "tabular_extraction").value.task)
  {
    PagesSentenceInTask(ms);
    var p := PagesSentence(Arg(ms, "no_pages"));
    PagesNumbered(Arg(ms, "no_pages"));
    LeadIns();
    OccursAcross(TabularExtractLine, PaginationLead + "at least the first ", PagesNumber, p[|PagesNumber|..],
                 TabularFiltersLead, FromTemplate(Object(ms), "tabular_extraction").value.task);
  }

  /** Likewise the fifth line: a filter sentence follows the template's own
      "5. If filters are available, apply ", which it repeats. */
  lemma FiltersLeadRepeated(ms: Members)
    requires HasAllKeys(ms) && !Arg(ms, "filters").Null?
    ensures FromTemplate(Object(ms), "tabular_extraction").Ok?
    ensures Occurs(FiltersLead + FiltersLead, FromTemplate(Object(ms), "tabular_extraction").value.task)
  {
    FilterSentenceInTask(ms);
    var f := FilterSentence(Arg(ms, "filters"));
    FiltersNumbered(Arg(ms, "filters"));
    LeadIns();
    OccursAcross(" pages and extract all data" + LineBreak, FiltersLead, FiltersLead, f[|FiltersLead|..],
                 TabularClosing, FromTemplate(Object(ms), "tabular_extraction").value.task);
  }

  /** The tabular task from the corrected template: the pagination sentence
      and the filter sentence each make up a whole line of their own. */
  function IntendedTabularTask(ms: Members): (r: string)
    requires HasAllKeys(ms)
    ensures Occurs(LineBreak + PagesSentence(Arg(ms, "no_pages")) + LineBreak, r)
    ensures Occurs(LineBreak + FilterSentence(Arg(ms, "filters")) + "\n", r)
  {
    var segs, args := IntendedTabularSegments, PromptArgs(ms);
    IntendedPlaceholders();
    ArgsCover(ms);
    IntendedLines(segs, args, PagesSentence(Arg(ms, "no_pages")), FilterSentence(Arg(ms, "filters")));
    Fill(segs, args).value
  }

  lemma IntendedLines(segs: seq<Segment>, args: map<string, string>, pages: string, filters: string)
    requires segs == IntendedTabularSegments && Placeholders(segs) <= args.Keys
    requires "no_pages" in args && "filters" in args && args["no_pages"] == pages && args["filters"] == filters
    ensures Fill(segs, args).Ok?
    ensures Occurs(LineBreak + pages + LineBreak, Fill(segs, args).value)
    ensures Occurs(LineBreak + filters + "\n", Fill(segs, args).value)
  {
    IntendedPagesLine(segs, args, pages);
    IntendedFiltersLine(segs, args, filters);
  }

  lemma IntendedPagesLine(segs: seq<Segment>, args: map<string, string>, pages: string)
    requires segs == IntendedTabularSegments && Placeholders(segs) <= args.Keys
    requires "no_pages" in args && args["no_pages"] == pages
    ensures Fill(segs, args).Ok?
    ensures Occurs(LineBreak + pages + LineBreak, Fill(segs, args).value)
  {
    IntendedSlots();
    LeadIns();
    FillAround(segs, args, 9);
    var extract := TabularExtractLine[..|TabularExtractLine| - |LineBreak|];
    assert segs[8].text + args[segs[9].name] + segs[10].text == (extract + LineBreak) + pages + (LineBreak + "");
    OccursWithin(extract, LineBreak, pages, LineBreak, "", Fill(segs, args).value);
  }

  lemma IntendedFiltersLine(segs: seq<Segment>, args: map<string, string>, filters: string)
    requires segs == IntendedTabularSegments && Placeholders(segs) <= args.Keys
    requires "filters" in args && args["filters"] == filters
    ensures Fill(segs, args).Ok?
    ensures Occurs(LineBreak + filters + "\n", Fill(segs, args).value)
  {
    IntendedSlots();
    FormatNoteSplit();
    FillAround(segs, args, 11);
    var lb, note := segs[10].text, FormatNoteLine;
    assert lb + filters + segs[12].text == ([] + lb) + filters + ("\n" + note);
    OccursWithin([], LineBreak, filters, "\n", note, Fill(segs, args).value);
  }

  lemma PagesInFill(ms: Members)
    requires HasAllKeys(ms)
    ensures Fill(TabularSegments, PromptArgs(ms)).Ok?
    ensures Occurs(TabularPagesLead + PagesSentence(Arg(ms, "no_pages")) + TabularFiltersLead,
                   Fill(TabularSegments, PromptArgs(ms)).value)
  {
    ArgsCover(ms);
    TabularSlot(PromptArgs(ms), 9);
  }

  lemma FiltersInFill(ms: Members)
    requires HasAllKeys(ms)
    ensures Fill(TabularSegments, PromptArgs(ms)).Ok?
    ensures Occurs(TabularFiltersLead + FilterSentence(Arg(ms, "filters")) + TabularClosing,
                   Fill(TabularSegments, PromptArgs(ms)).value)
  {
    ArgsCover(ms);
    TabularSlot(PromptArgs(ms), 11);
  }

  /** The pagination or filter hole of the tabular template, filled, sits
      between its two literal neighbours. */
  lemma TabularSlot(args: map<string, string>, i: nat)
    requires i == 9 || i == 11
    requires Placeholders(TabularSegments) <= args.Keys
    ensures Fill(TabularSegments, args).Ok?
    ensures i == 9 ==>
      ("no_pages" in args && Occurs(TabularPagesLead + args["no_pages"] + TabularFiltersLead, Fill(TabularSegments, args).value))
    ensures i == 11 ==>
      ("filters" in args && Occurs(TabularFiltersLead + args["filters"] + TabularClosing, Fill(TabularSegments, args).value))
  {
    TabularSlots();
    FillAround(TabularSegments, args, i);
  }

  lemma ArgsCover(ms: Members)
    requires HasAllKeys(ms)
    ensures Placeholders(TabularSegments) <= PromptArgs(ms).Keys
  {
    TabularPlaceholders();
  }
}
