/** The trace the browser scraper's step hook keeps (`trace.json`): the
    url-to-webpage-number map, the set of visited urls and a history entry
    per step, and the hook's decision whether to save the current page.

    Reading and writing the file, the browser and the screenshots are not
    modelled: the loaded trace is an input and the updated trace the
    result. */
module TraceHooks {
  import opened Wrappers
  import opened Json
  import opened PyText
  import Slug

  /** The parts of the trace the hooks use; `None` for a key that is absent.
      The map and the history are dicts; history keys are the step numbers
      as text. */
  datatype Trace = Trace(mapper: Option<Members>, urls: Option<set<string>>, history: Option<Members>)

  /** `{}`: what a missing or unreadable trace file loads as. */
  const EmptyTrace := Trace(None, None, None)

  /** The lookups that raise: no history, no entry for a step, an entry
      that is not a dict, or a snapshot without urls; and a step hook run
      with no url or no step recorded. */
  datatype TraceError =
    | NoHistory
    | NoEntry(key: string)
    | EntryNotMapping(key: string)
    | NoUrls
    | NoSteps

  /** The history key of a step. */
  function StepKey(step: int): string {
    IntToString(step)
  }

  // ---------------------------------------------------------------------------
  // Webpage numbers

  /** The numbers are 1, 2, ... in insertion order, each url once. */
  predicate Numbered(m: Members) {
    UniqueKeys(m) && forall i :: 0 <= i < |m| ==> m[i].1 == Int(i + 1)
  }

  /** The current url's number is kept, or the next one is given to it. */
  function Number(mapper: Option<Members>, url: string): (r: Members)
    ensures mapper.None? ==> r == [(url, Int(1))]
    ensures mapper.Some? && HasKey(mapper.value, url) ==> r == mapper.value
    ensures mapper.Some? && !HasKey(mapper.value, url) ==> r == mapper.value + [(url, Int(|mapper.value| + 1))]
    ensures HasKey(r, url)
  {
    match mapper
    case None => [(url, Int(1))]
    case Some(m) =>
      if HasKey(m, url) then m
      else
        var r := Put(m, url, Int(|m| + 1));
        AppendNew(m, url, Int(|m| + 1));
        r
  }

  /** Numbering keeps the numbers exactly 1..n, each url once, and keeps
      every existing entry where it was. */
  lemma NumberKeepsNumbering(mapper: Option<Members>, url: string)
    requires mapper.Some? ==> Numbered(mapper.value)
    ensures Numbered(Number(mapper, url))
    ensures mapper.Some? ==> Number(mapper, url)[..|mapper.value|] == mapper.value
  {
    if mapper.Some? && !HasKey(mapper.value, url) {
      var m := mapper.value;
      var r := m + [(url, Int(|m| + 1))];
      AppendUnique(m, url, Int(|m| + 1));
      forall i | 0 <= i < |r| ensures r[i].1 == Int(i + 1) {
        if i < |m| {
          assert r[i] == m[i];
        }
      }
      assert Numbered(r);
      assert r[..|m|] == m;
    } else if mapper.None? {
      var r := [(url, Int(1))];
      assert Number(mapper, url) == r;
      assert r[0].1 == Int(0 + 1);
    }
  }

  /** The url keeps its number if it had one, and otherwise gets the next
      one: 1 for the first url. */
  lemma NumberOfUrl(mapper: Option<Members>, url: string)
    requires mapper.Some? ==> Numbered(mapper.value)
    ensures mapper.Some? && HasKey(mapper.value, url) ==>
      Lookup(Number(mapper, url), url) == Lookup(mapper.value, url)
    ensures mapper.Some? && !HasKey(mapper.value, url) ==>
      Lookup(Number(mapper, url), url) == Some(Int(|mapper.value| + 1))
    ensures mapper.None? ==> Lookup(Number(mapper, url), url) == Some(Int(1))
  {
    var r := Number(mapper, url);
    if mapper.Some? && !HasKey(mapper.value, url) {
      var m := mapper.value;
      NumberKeepsNumbering(mapper, url);
      assert r[|m|] == (url, Int(|m| + 1));
      LookupAt(r, |m|);
    }
  }

  // ---------------------------------------------------------------------------
  // initialize_trace_logging

  /** `action_names()` if there are any, else `None`. */
  function ActionValue(actionNames: seq<string>): (r: Json)
    ensures actionNames == [] <==> r == Null
  {
    if actionNames == [] then Null else Array(seq(|actionNames|, i requires 0 <= i < |actionNames| => String(actionNames[i])))
  }

  /** The last step's error if there are any steps, else `None`. */
  function ErrorValue(errors: seq<Json>): (r: Json)
    ensures errors != [] ==> r == errors[|errors| - 1]
    ensures errors == [] ==> r == Null
  {
    if errors == [] then Null else errors[|errors| - 1]
  }

  /** The entry recorded for a step: its actions and its last error. */
  function StepEntry(actionNames: seq<string>, errors: seq<Json>): Json {
    Object([("action", ActionValue(actionNames)), ("errors", ErrorValue(errors))])
  }

  /** The history with the step's entry set to a fresh one. The loaded
      history's keys are strings and `step` is an int, so the membership
      test always fails and a new `{}` is stored under the int key; the JSON
      round trip then writes both keys as the same text and reads back the
      new entry in the old key's place. */
  function RecordStep(history: Option<Members>, step: int, actionNames: seq<string>, errors: seq<Json>): Members {
    Put(history.GetOr([]), StepKey(step), StepEntry(actionNames, errors))
  }

  /** `initialize_trace_logging`: the trace as loaded (the snapshot) and the
      trace with the url numbered, the urls replaced by the set of the given
      ones, and the step recorded. */
  function InitTrace(data: Trace, currentUrl: string, urls: seq<string>, step: int,
                     actionNames: seq<string>, errors: seq<Json>): (r: (Trace, Trace))
    ensures r.0 == data
    ensures r.1.mapper == Some(Number(data.mapper, currentUrl))
    ensures r.1.urls == Some(set u | u in urls)
    ensures r.1.history == Some(RecordStep(data.history, step, actionNames, errors))
  {
    (data, Trace(Some(Number(data.mapper, currentUrl)), Some(set u | u in urls),
                 Some(RecordStep(data.history, step, actionNames, errors))))
  }

  /** Recording a step makes its entry exactly `action` and `errors`,
      dropping whatever the entry held before, keeps the order of the
      history's keys, and leaves every other step alone. */
  lemma RecordStepEntry(history: Option<Members>, step: int, actionNames: seq<string>, errors: seq<Json>)
    ensures var h := RecordStep(history, step, actionNames, errors);
      var key := StepKey(step);
      && Lookup(h, key) == Some(Object([("action", ActionValue(actionNames)), ("errors", ErrorValue(errors))]))
      && (HasKey(history.GetOr([]), key) ==> Keys(h) == Keys(history.GetOr([])))
      && (forall k :: k != key ==> Lookup(h, k) == Lookup(history.GetOr([]), k))
  {
  }

  /** A step not yet in the history is appended as its last entry. */
  lemma RecordNewStep(history: Option<Members>, step: int, actionNames: seq<string>, errors: seq<Json>)
    requires !HasKey(history.GetOr([]), StepKey(step))
    ensures RecordStep(history, step, actionNames, errors) ==
      history.GetOr([]) + [(StepKey(step), Object([("action", ActionValue(actionNames)), ("errors", ErrorValue(errors))]))]
  {
    AppendNew(history.GetOr([]), StepKey(step), StepEntry(actionNames, errors));
  }

  // ---------------------------------------------------------------------------
  // finalize_trace_logging

  /** `finalize_trace_logging`: the step's entry gets the screenshot path and
      the page file path; a falsy page path is replaced by the previous
      step's, or `None` if it has none. */
  function FinalizeTrace(data: Trace, step: int, screenshotPath: Json, webpageFilePath: Json)
    : (r: Result<Trace, TraceError>)
    ensures data.history.None? ==> r == Err(NoHistory)
  {
    if data.history.None? then Err(NoHistory)
    else
      var h := data.history.value;
      var key := StepKey(step);
      match Lookup(h, key)
      case None => Err(NoEntry(key))
      case Some(entry) =>
        if !entry.Object? then Err(EntryNotMapping(key))
        else
          var withShot := Put(entry.members, "screenshot_path", screenshotPath);
          var page :- PagePath(h, step, webpageFilePath);
          Ok(data.(history := Some(Put(h, key, Object(Put(withShot, "webpage_file_path", page))))))
  }

  /** The previous step's entry, if it is a dict. */
  function PreviousEntry(h: Members, step: int): (r: Option<Members>)
    ensures r.Some? <==> Lookup(h, StepKey(step - 1)).Some? && Lookup(h, StepKey(step - 1)).value.Object?
    ensures r.Some? ==> Lookup(h, StepKey(step - 1)) == Some(Object(r.value))
  {
    match Lookup(h, StepKey(step - 1))
    case Some(Object(ms)) => Some(ms)
    case _ => None
  }

  /** The page path recorded for a step: the given one if truthy, else the
      previous step's. */
  function PagePath(h: Members, step: int, webpageFilePath: Json): (r: Result<Json, TraceError>)
    ensures Truthy(webpageFilePath) ==> r == Ok(webpageFilePath)
    ensures !Truthy(webpageFilePath) && PreviousEntry(h, step).Some? ==>
      r == Ok(Lookup(PreviousEntry(h, step).value, "webpage_file_path").GetOr(Null))
    ensures !Truthy(webpageFilePath) && Lookup(h, StepKey(step - 1)).None? ==> r == Err(NoEntry(StepKey(step - 1)))
  {
    if Truthy(webpageFilePath) then Ok(webpageFilePath)
    else
      var prevKey := StepKey(step - 1);
      match Lookup(h, prevKey)
      case None => Err(NoEntry(prevKey))
      case Some(prev) =>
        if !prev.Object? then Err(EntryNotMapping(prevKey))
        else Ok(Lookup(prev.members, "webpage_file_path").GetOr(Null))
  }

  /** Different steps have different history keys. */
  lemma StepKeysDiffer(a: int, b: int)
    requires a != b
    ensures StepKey(a) != StepKey(b)
  {
    IntToStringRoundTrip(a);
    IntToStringRoundTrip(b);
  }

  /** Finalizing sets the step's two paths and leaves every other step,
      the numbering and the urls alone. */
  lemma FinalizeEntry(data: Trace, step: int, screenshotPath: Json, webpageFilePath: Json)
    requires FinalizeTrace(data, step, screenshotPath, webpageFilePath).Ok?
    ensures var t := FinalizeTrace(data, step, screenshotPath, webpageFilePath).value;
      var key := StepKey(step);
      && t.mapper == data.mapper && t.urls == data.urls
      && t.history.Some? && Lookup(t.history.value, key).Some? && Lookup(t.history.value, key).value.Object?
      && Lookup(Lookup(t.history.value, key).value.members, "screenshot_path") == Some(screenshotPath)
      && Lookup(Lookup(t.history.value, key).value.members, "webpage_file_path") ==
           Some(PagePath(data.history.value, step, webpageFilePath).value)
      && (forall k :: k != key ==> Lookup(t.history.value, k) == Lookup(data.history.value, k))
  {
  }

  /** With a falsy page path, finalizing records the previous step's
      page file path, which therefore exists. */
  lemma FinalizeCopiesPrevious(data: Trace, step: int, screenshotPath: Json, webpageFilePath: Json)
    requires !Truthy(webpageFilePath)
    requires FinalizeTrace(data, step, screenshotPath, webpageFilePath).Ok?
    ensures data.history.Some? && PreviousEntry(data.history.value, step).Some?
    ensures var t := FinalizeTrace(data, step, screenshotPath, webpageFilePath).value;
      && t.history.Some? && Lookup(t.history.value, StepKey(step)).Some?
      && Lookup(t.history.value, StepKey(step)).value.Object?
      && Lookup(Lookup(t.history.value, StepKey(step)).value.members, "webpage_file_path") ==
           Some(Lookup(PreviousEntry(data.history.value, step).value, "webpage_file_path").GetOr(Null))
  {
    FinalizeEntry(data, step, screenshotPath, webpageFilePath);
  }

  /** Recording a step leaves the previous step's entry as it was. */
  lemma RecordKeepsPrevious(history: Option<Members>, step: int, actionNames: seq<string>, errors: seq<Json>)
    ensures PreviousEntry(RecordStep(history, step, actionNames, errors), step) ==
      PreviousEntry(history.GetOr([]), step)
  {
    RecordStepEntry(history, step, actionNames, errors);
    StepKeysDiffer(step - 1, step);
  }

  // ---------------------------------------------------------------------------
  // save_page_content

  /** What the step hook does with the current page. */
  datatype Save =
    | SkipError   // the step failed: nothing is saved
    | NewPage     // the page is saved as a PDF and screenshotted
    | SeenPage    // the page was saved before: only a screenshot

  /** The save decision from the last step's error and the trace as it was
      before this step: a url is new when the trace was empty or did not
      list it. */
  function Decide(snapshot: Trace, currentUrl: string, lastError: Json): (r: Result<Save, TraceError>)
    ensures lastError != Null ==> r == Ok(SkipError)
    ensures lastError == Null && snapshot == EmptyTrace ==> r == Ok(NewPage)
  {
    if lastError != Null then Ok(SkipError)
    else if snapshot == EmptyTrace then Ok(NewPage)
    else
      match snapshot.urls
      case None => Err(NoUrls)
      case Some(seen) => Ok(if currentUrl in seen then SeenPage else NewPage)
  }

  /** A page is saved anew exactly when the step did not fail and the url
      was not listed before. */
  lemma DecideNewPage(snapshot: Trace, currentUrl: string, lastError: Json)
    requires Decide(snapshot, currentUrl, lastError).Ok?
    ensures Decide(snapshot, currentUrl, lastError).value == NewPage <==>
      lastError == Null && (snapshot == EmptyTrace || currentUrl !in snapshot.urls.value)
  {
  }

  /** `os.path.join(a, b)` for a relative `b`. */
  function PathJoin(a: string, b: string): string {
    if a == "" then b else if a[|a| - 1] == '/' then a + b else a + "/" + b
  }

  /** The directory of a webpage's files. */
  function PageDir(resultsPath: string, number: Json): string {
    PathJoin(resultsPath, "webpage-" + Str(number))
  }

  /** The result of the step hook: the updated trace, the decision and the
      page's number. */
  datatype Step = Step(trace: Trace, save: Save, number: Json)

  /** The screenshot path recorded: none for a failed step. */
  function ShotPath(save: Save, dir: string, step: int): (r: Json)
    ensures save == SkipError <==> r == Null
  {
    if save == SkipError then Null
    else String(PathJoin(dir, "screenshot-step-" + IntToString(step) + ".png"))
  }

  /** The page file path passed on: the new PDF's path, `False` for a page
      seen before, and `None` for a failed step. */
  function PageFile(save: Save, dir: string, number: Json): (r: Json)
    ensures save == NewPage ==> r.String?
    ensures save != NewPage ==> !Truthy(r)
  {
    match save
    case SkipError => Null
    case NewPage => String(PathJoin(dir, "webpage-" + Str(number) + ".pdf"))
    case SeenPage => Bool(false)
  }

  /** The page file recorded for a new page (the webpage numbers are ints)
      names the PDF `save_to_pdf` wrote only when the url's slug happens to be `webpage-N` itself: the
      hook records `webpage-N.pdf` while the PDF is named after the slug. */
  lemma RecordedPdfMatches(resultsEnv: string, number: Json, url: string)
    requires number.Int?
    ensures var results := PathJoin(resultsEnv, "local");
      PageFile(NewPage, PageDir(results, number), number) == String(Slug.PdfPath(results, Str(number), url))
      <==> Slug.Slug(url) == "webpage-" + Str(number)
  {
    var results := PathJoin(resultsEnv, "local");
    assert results != [] && results[|results| - 1] != '/';
    var n := Str(number);
    assert n == IntToString(number.i);
    JoinedPdf(results, n, Slug.Slug(url));
  }

  /** The recorded PDF path as evidently intended: for a new page, the file
      `save_to_pdf` writes, named by the page's slug; otherwise what the
      hook records now. */
  function SavedPageFile(save: Save, dir: string, number: Json, url: string): (r: Json)
    ensures save != NewPage ==> r == PageFile(save, dir, number)
    ensures save == NewPage ==> r.String?
  {
    if save == NewPage then String(PathJoin(dir, Slug.Slug(url) + ".pdf")) else PageFile(save, dir, number)
  }

  /** With the intended path, the trace always names the saved PDF. */
  lemma SavedPdfMatches(resultsEnv: string, number: Json, url: string)
    requires number.Int?
    ensures var results := PathJoin(resultsEnv, "local");
      SavedPageFile(NewPage, PageDir(results, number), number, url) == String(Slug.PdfPath(results, Str(number), url))
  {
    var results := PathJoin(resultsEnv, "local");
    assert results != [] && results[|results| - 1] != '/';
    var n := Str(number);
    assert n == IntToString(number.i);
    SlugJoined(results, n, Slug.Slug(url));
  }

  /** Joining the page directory with a file name gives the path
      `save_to_pdf` builds with an f-string. */
  lemma SlugJoined(results: string, n: string, slug: string)
    requires results != [] && results[|results| - 1] != '/'
    requires n != [] && n[|n| - 1] != '/'
    ensures PathJoin(PathJoin(results, "webpage-" + n), slug + ".pdf") ==
            results + "/webpage-" + n + "/" + slug + ".pdf"
  {
    var page := "webpage-" + n;
    assert PathJoin(results, page) == results + "/" + page;
    assert (results + "/" + page)[|results + "/" + page| - 1] == n[|n| - 1];
    assert PathJoin(results + "/" + page, slug + ".pdf") == (results + "/" + page + "/") + (slug + ".pdf");
    assert results + "/webpage-" + n + "/" + slug + ".pdf" == (results + "/" + page + "/") + (slug + ".pdf");
  }

  /** The recorded path and the written path, for a results directory that
      does not end in a slash, agree exactly when the slug is the page name. */
  lemma JoinedPdf(results: string, n: string, slug: string)
    requires results != [] && results[|results| - 1] != '/'
    requires n != [] && n[|n| - 1] != '/'
    ensures PathJoin(PathJoin(results, "webpage-" + n), "webpage-" + n + ".pdf") ==
            results + "/webpage-" + n + "/" + slug + ".pdf"
            <==> slug == "webpage-" + n
  {
    var page := "webpage-" + n;
    var dir := results + "/" + page + "/";
    assert PathJoin(results, page) == results + "/" + page;
    assert (results + "/" + page)[|results + "/" + page| - 1] == n[|n| - 1];
    assert PathJoin(PathJoin(results, page), page + ".pdf") == dir + (page + ".pdf");
    assert results + "/webpage-" + n + "/" + slug + ".pdf" == dir + (slug + ".pdf");
    SameTail(dir, page + ".pdf", slug + ".pdf");
    SameSuffix(page, slug, ".pdf");
  }

  lemma SameTail(p: string, x: string, y: string)
    ensures p + x == p + y <==> x == y
  {
    if p + x == p + y {
      assert x == (p + x)[|p|..];
    }
  }

  lemma SameSuffix(x: string, y: string, t: string)
    ensures x + t == y + t <==> x == y
  {
    if x + t == y + t {
      assert x == (x + t)[..|x|];
    }
  }

  /** `save_page_content` after the agent's step, given the loaded trace,
      the results directory, the urls visited, the action names and the
      per-step errors: the trace is updated for the last url, then the page
      is saved, screenshotted or skipped. */
  function SavePage(data: Trace, resultsEnv: string, urls: seq<string>, actionNames: seq<string>,
                    errors: seq<Json>): (r: Result<Step, TraceError>)
    requires resultsEnv != ""
    ensures urls == [] ==> r == Err(NoUrls)
    ensures r.Ok? ==>
      && urls != [] && errors != []
      && r == AfterUpdate(data, InitTrace(data, urls[|urls| - 1], urls, |urls|, actionNames, errors).1,
                          urls[|urls| - 1], |urls|, errors[|errors| - 1], resultsEnv)
  {
    if urls == [] then Err(NoUrls)
    else
      var current := urls[|urls| - 1];
      var traces := InitTrace(data, current, urls, |urls|, actionNames, errors);
      if errors == [] then Err(NoSteps)
      else AfterUpdate(traces.0, traces.1, current, |urls|, errors[|errors| - 1], resultsEnv)
  }

  /** The rest of the hook once the trace is updated: the decision on the
      trace as it was, then the paths recorded for the step. */
  function AfterUpdate(snapshot: Trace, updated: Trace, current: string, step: int, lastError: Json,
                       resultsEnv: string): (r: Result<Step, TraceError>)
    requires updated.mapper.Some? && HasKey(updated.mapper.value, current)
    ensures r.Ok? ==> Decide(snapshot, current, lastError).Ok? && r.value.save == Decide(snapshot, current, lastError).value
    ensures r.Ok? ==> r.value.number == Lookup(updated.mapper.value, current).value
    ensures r.Ok? ==>
      var dir := PageDir(PathJoin(resultsEnv, "local"), r.value.number);
      FinalizeTrace(updated, step, ShotPath(r.value.save, dir, step), PageFile(r.value.save, dir, r.value.number))
        == Ok(r.value.trace)
  {
    var save :- Decide(snapshot, current, lastError);
    var number := Lookup(updated.mapper.value, current).value;
    var dir := PageDir(PathJoin(resultsEnv, "local"), number);
    var t :- FinalizeTrace(updated, step, ShotPath(save, dir, step), PageFile(save, dir, number));
    Ok(Step(t, save, number))
  }

  /** A page is saved anew exactly when the step did not fail and its url
      was not in the trace as it stood before the step; nothing is saved for
      a failed step. */
  lemma SavePageDecision(data: Trace, resultsEnv: string, urls: seq<string>, actionNames: seq<string>,
                         errors: seq<Json>)
    requires resultsEnv != ""
    requires SavePage(data, resultsEnv, urls, actionNames, errors).Ok?
    ensures urls != [] && errors != []
    ensures var r := SavePage(data, resultsEnv, urls, actionNames, errors).value;
      && (r.save == SkipError <==> errors[|errors| - 1] != Null)
      && (r.save == NewPage <==>
            errors[|errors| - 1] == Null && (data == EmptyTrace || urls[|urls| - 1] !in data.urls.value))
  {
    var current := urls[|urls| - 1];
    DecideNewPage(data, current, errors[|errors| - 1]);
  }

  /** On a page seen before, the step records the previous step's page file
      path. */
  lemma SeenPageCopiesPath(data: Trace, resultsEnv: string, urls: seq<string>, actionNames: seq<string>,
                           errors: seq<Json>)
    requires resultsEnv != ""
    requires SavePage(data, resultsEnv, urls, actionNames, errors).Ok?
    requires SavePage(data, resultsEnv, urls, actionNames, errors).value.save == SeenPage
    ensures PreviousEntry(data.history.GetOr([]), |urls|).Some?
    ensures var h := SavePage(data, resultsEnv, urls, actionNames, errors).value.trace.history;
      && h.Some?
      && Lookup(h.value, StepKey(|urls|)).Some?
      && Lookup(h.value, StepKey(|urls|)).value.Object?
      && Lookup(Lookup(h.value, StepKey(|urls|)).value.members, "webpage_file_path") ==
           Some(Lookup(PreviousEntry(data.history.GetOr([]), |urls|).value, "webpage_file_path").GetOr(Null))
  {
    var current := urls[|urls| - 1];
    var step := |urls|;
    var updated := InitTrace(data, current, urls, step, actionNames, errors).1;
    var r := SavePage(data, resultsEnv, urls, actionNames, errors).value;
    var dir := PageDir(PathJoin(resultsEnv, "local"), r.number);
    var page := PageFile(SeenPage, dir, r.number);
    FinalizeCopiesPrevious(updated, step, ShotPath(SeenPage, dir, step), page);
    RecordKeepsPrevious(data.history, step, actionNames, errors);
  }
}
