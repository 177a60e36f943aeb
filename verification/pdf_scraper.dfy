/** The PDF scraper (`PDFScraper`) without its retrieval chain: the
    construction checks, the query text sent to the chain, the clean-up of
    markdown fences around a JSON answer, and the result shapes of `scrape`,
    `_fix_json_with_llm` and `extract_specific_info`.

    The chain's answer, the repair model's reply, file existence and
    `json.dumps` are inputs. */
module PdfScraper {
  import opened Wrappers
  import opened Json
  import opened PyText
  import opened Tasks
  import BrowserScraper

  // ---------------------------------------------------------------------------
  // Construction

  /** `pdf_paths`: one path or a list of paths. */
  datatype Paths = OnePath(path: string) | PathList(paths: seq<string>)

  /** Why construction stops: a failed `assert` on the paths, the prompt or
      a file, or the task cannot be built. */
  datatype PdfError = NoPaths | NoPrompt | FileMissing(path: string) | TaskFailed(error: TaskError)

  /** A constructed scraper: what `_init_content` and `scrape` read back. */
  datatype Pdf = Pdf(
    taskString: string,
    contextText: string,
    paths: seq<string>,
    prompt: string,
    taskTemplate: string,
    outputFormat: Json)

  /** `pdf_paths` is truthy. */
  predicate HasPaths(p: Paths) {
    match p
    case OnePath(s) => s != ""
    case PathList(ps) => ps != []
  }

  /** A single path becomes a one-element list. */
  function PathSeq(p: Paths): (r: seq<string>)
    ensures p.OnePath? ==> r == [p.path]
    ensures p.PathList? ==> r == p.paths
  {
    match p
    case OnePath(s) => [s]
    case PathList(ps) => ps
  }

  /** The first path that is empty or names no file, if any. */
  function FirstMissing(paths: seq<string>, fileExists: string -> bool): (r: Option<string>)
    ensures r.None? <==> forall i :: 0 <= i < |paths| ==> paths[i] != "" && fileExists(paths[i])
    ensures r.Some? ==> r.value in paths && (r.value == "" || !fileExists(r.value))
    ensures r.Some? ==> exists i :: FirstFailing(paths, fileExists, i) && paths[i] == r.value
  {
    if paths == [] then None
    else if paths[0] == "" || !fileExists(paths[0]) then Some(paths[0])
    else
      var rest := FirstMissing(paths[1..], fileExists);
      assert forall i :: 1 <= i < |paths| ==> paths[i] == paths[1..][i - 1];
      if rest.Some? then
        var i :| FirstFailing(paths[1..], fileExists, i) && paths[1..][i] == rest.value;
        assert FirstFailing(paths, fileExists, i + 1);
        rest
      else rest
  }

  /** `paths[i]` is the first path the loop rejects: every earlier path is
      non-empty and names a file, and this one does not. */
  predicate FirstFailing(paths: seq<string>, fileExists: string -> bool, i: int) {
    && 0 <= i < |paths|
    && (paths[i] == "" || !fileExists(paths[i]))
    && forall j :: 0 <= j < i ==> paths[j] != "" && fileExists(paths[j])
  }

  /** `PDFScraper.__init__` up to the retrieval chain: paths and prompt must
      be truthy, in that order; a single path is listed; every path must name
      an existing file; then the task is built from the template. */
  function Init(paths: Paths, prompt: string, taskTemplate: string, context: Json, outputFormat: Json,
                fileExists: string -> bool): (r: Result<Pdf, PdfError>)
    ensures !HasPaths(paths) ==> r == Err(NoPaths)
    ensures HasPaths(paths) && prompt == "" ==> r == Err(NoPrompt)
    ensures HasPaths(paths) && prompt != "" && FirstMissing(PathSeq(paths), fileExists).Some? ==>
      r == Err(FileMissing(FirstMissing(PathSeq(paths), fileExists).value))
    ensures r.Ok? <==>
      HasPaths(paths) && prompt != "" && FirstMissing(PathSeq(paths), fileExists).None?
      && FromTemplate(String(prompt), taskTemplate).Ok?
    ensures r.Ok? ==>
      && r.value.paths == PathSeq(paths)
      && r.value.taskString == FromTemplate(String(prompt), taskTemplate).value.task
      && r.value.contextText == BrowserScraper.ContextText(context)
      && r.value.prompt == prompt && r.value.taskTemplate == taskTemplate
      && r.value.outputFormat == outputFormat
  {
    if !HasPaths(paths) then Err(NoPaths)
    else if prompt == "" then Err(NoPrompt)
    else
      var ps := PathSeq(paths);
      match FirstMissing(ps, fileExists)
      case Some(p) => Err(FileMissing(p))
      case None =>
        match FromTemplate(String(prompt), taskTemplate)
        case Err(e) => Err(TaskFailed(e))
        case Ok(task) =>
          Ok(Pdf(TaskString(task), BrowserScraper.ContextText(context), ps, prompt, taskTemplate, outputFormat))
  }

  /** The constructor's default template name. */
  const DefaultPdfTemplate := "default_pdf"

  /** The default template is not one `Task.from_template` can build, so a
      scraper built with it never gets past the task. */
  lemma DefaultTemplateFails(paths: Paths, prompt: string, context: Json, outputFormat: Json,
                             fileExists: string -> bool)
    requires HasPaths(paths) && prompt != "" && FirstMissing(PathSeq(paths), fileExists).None?
    ensures Init(paths, prompt, DefaultPdfTemplate, context, outputFormat, fileExists) ==
      Err(TaskFailed(TaskUnbound(DefaultPdfTemplate)))
  {
  }

  // ---------------------------------------------------------------------------
  // The query text

  const ContentLead := "\n        PDF file(s): \n        "
  const PathSeparator := "\n        "
  const TaskLead := "\n        \n        Task: "
  const PromptLead := "\n        Prompt: "
  const ContextLead := "\n        Additional context: "
  const FormatLead := "\n        \n        Please extract the requested information from the PDF document(s) and format your response according to the following structure:\n        "
  const ContentEnd := "\n        "
  const NoFormat := "Provide a detailed response."

  /** The structure the answer should follow: the dumped output format, or a
      fixed sentence when there is none. */
  function FormatText(outputFormat: Json, dumps: Json -> string): (r: string)
    ensures Truthy(outputFormat) ==> r == dumps(outputFormat)
    ensures !Truthy(outputFormat) ==> r == NoFormat
  {
    if Truthy(outputFormat) then dumps(outputFormat) else NoFormat
  }

  /** `_init_content`: the text sent to the retrieval chain. */
  function Content(pdf: Pdf, dumps: Json -> string): string {
    ContentLead + Join(pdf.paths, PathSeparator) + TaskLead + pdf.taskString
    + PromptLead + pdf.prompt + ContextLead + pdf.contextText
    + FormatLead + FormatText(pdf.outputFormat, dumps) + ContentEnd
  }

  /** The query text carries the task on its labelled line. */
  lemma ContentTask(pdf: Pdf, dumps: Json -> string)
    ensures Occurs(TaskLead + pdf.taskString + PromptLead, Content(pdf, dumps))
  {
    var y := ContentLead + Join(pdf.paths, PathSeparator);
    var k := y + TaskLead + pdf.taskString + PromptLead;
    OccursAfter(y, TaskLead, pdf.taskString, PromptLead);
    var pat := TaskLead + pdf.taskString + PromptLead;
    OccursPrefix(pat, k, pdf.prompt);
    OccursPrefix(pat, k + pdf.prompt, ContextLead);
    OccursPrefix(pat, k + pdf.prompt + ContextLead, pdf.contextText);
    OccursPrefix(pat, k + pdf.prompt + ContextLead + pdf.contextText, FormatLead);
    OccursPrefix(pat, k + pdf.prompt + ContextLead + pdf.contextText + FormatLead, FormatText(pdf.outputFormat, dumps));
    OccursPrefix(pat, k + pdf.prompt + ContextLead + pdf.contextText + FormatLead + FormatText(pdf.outputFormat, dumps),
      ContentEnd);
  }

  /** The query text carries the prompt on its labelled line. */
  lemma ContentPrompt(pdf: Pdf, dumps: Json -> string)
    ensures Occurs(PromptLead + pdf.prompt + ContextLead, Content(pdf, dumps))
  {
    var y := ContentLead + Join(pdf.paths, PathSeparator) + TaskLead + pdf.taskString;
    var k := y + PromptLead + pdf.prompt + ContextLead;
    OccursAfter(y, PromptLead, pdf.prompt, ContextLead);
    var pat := PromptLead + pdf.prompt + ContextLead;
    OccursPrefix(pat, k, pdf.contextText);
    OccursPrefix(pat, k + pdf.contextText, FormatLead);
    OccursPrefix(pat, k + pdf.contextText + FormatLead, FormatText(pdf.outputFormat, dumps));
    OccursPrefix(pat, k + pdf.contextText + FormatLead + FormatText(pdf.outputFormat, dumps), ContentEnd);
  }

  /** The query text carries the context on its labelled line. */
  lemma ContentContext(pdf: Pdf, dumps: Json -> string)
    ensures Occurs(ContextLead + pdf.contextText + FormatLead, Content(pdf, dumps))
  {
    var y := ContentLead + Join(pdf.paths, PathSeparator) + TaskLead + pdf.taskString + PromptLead + pdf.prompt;
    var k := y + ContextLead + pdf.contextText + FormatLead;
    OccursAfter(y, ContextLead, pdf.contextText, FormatLead);
    var pat := ContextLead + pdf.contextText + FormatLead;
    OccursPrefix(pat, k, FormatText(pdf.outputFormat, dumps));
    OccursPrefix(pat, k + FormatText(pdf.outputFormat, dumps), ContentEnd);
  }

  /** The query text ends with the requested structure, after the
      instructions. */
  lemma ContentFormat(pdf: Pdf, dumps: Json -> string)
    ensures Occurs(FormatLead + FormatText(pdf.outputFormat, dumps) + ContentEnd, Content(pdf, dumps))
  {
    var y := ContentLead + Join(pdf.paths, PathSeparator) + TaskLead + pdf.taskString + PromptLead + pdf.prompt
      + ContextLead + pdf.contextText;
    OccursAfter(y, FormatLead, FormatText(pdf.outputFormat, dumps), ContentEnd);
  }

  // ---------------------------------------------------------------------------
  // Fence cleaning

  const Fence := "```"
  const JsonFence := "```json"

  /** `text.replace("```json", "").replace("```", "").strip()`. */
  function CleanFences(text: string): string {
    Strip(RemoveAll(RemoveAll(text, JsonFence), Fence))
  }

  /** If what is left after deleting fences starts with a backtick, so does
      the text. */
  lemma RemovedHead(t: string)
    requires RemoveAll(t, Fence) != [] && RemoveAll(t, Fence)[0] == '`'
    ensures t != [] && t[0] == '`'
  {
  }

  /** If what is left after deleting fences starts with two backticks, so
      does the text. */
  lemma RemovedHeadPair(t: string)
    requires |RemoveAll(t, Fence)| >= 2 && RemoveAll(t, Fence)[..2] == "``"
    ensures |t| >= 2 && t[..2] == "``"
  {
    if |t| >= 3 && t[..3] != Fence {
      var r := RemoveAll(t, Fence);
      assert r == [t[0]] + RemoveAll(t[1..], Fence);
      assert r[1] == RemoveAll(t[1..], Fence)[0];
      RemovedHead(t[1..]);
      assert t[..2] == [t[0], t[1]];
    }
  }

  /** Deleting fences leaves no fence behind: runs of backticks shrink below
      three. */
  lemma {:induction false} NoFenceLeft(s: string)
    ensures !Occurs(Fence, RemoveAll(s, Fence))
    decreases |s|
  {
    var r := RemoveAll(s, Fence);
    if |s| >= 3 {
      if s[..3] == Fence {
        NoFenceLeft(s[3..]);
      } else {
        var tail := RemoveAll(s[1..], Fence);
        assert r == [s[0]] + tail;
        NoFenceLeft(s[1..]);
        forall i | 0 <= i <= |r| - 3 ensures !OccursAt(Fence, r, i) {
          if i > 0 {
            assert r[i..i + 3] == tail[i - 1..i - 1 + 3];
            assert !OccursAt(Fence, tail, i - 1);
          } else if tail[..2] == "``" {
            RemovedHeadPair(s[1..]);
            assert s[..3] == [s[0]] + s[1..][..2];
            assert r[0] != '`';
          } else {
            assert r[..3] == [r[0]] + tail[..2];
          }
        }
      }
    }
  }

  /** A pattern found in a slice is found in the whole. */
  lemma OccursInSlice(pat: string, s: string, i: int, j: int)
    requires 0 <= i <= j <= |s|
    requires Occurs(pat, s[i..j])
    ensures Occurs(pat, s)
  {
    var u := s[i..j];
    var k :| 0 <= k <= |u| - |pat| && OccursAt(pat, u, k);
    forall m | 0 <= m < |pat| ensures s[i + k + m] == pat[m] {
      assert u[k..k + |pat|][m] == u[k + m] == s[i + k + m];
    }
    assert s[i + k..i + k + |pat|] == pat;
    assert OccursAt(pat, s, i + k);
  }

  /** Stripping cannot create a pattern. */
  lemma StripKeepsAbsent(pat: string, s: string)
    requires !Occurs(pat, s)
    ensures !Occurs(pat, Strip(s))
  {
    var c := Strip(s);
    var i := StripStart(s, IsSpace);
    if Occurs(pat, c) {
      OccursInSlice(pat, s, i, i + |c|);
    }
  }

  /** Cleaned text holds no fence. */
  lemma CleanedHasNoFence(text: string)
    ensures !Occurs(Fence, CleanFences(text))
  {
    NoFenceLeft(RemoveAll(text, JsonFence));
    StripKeepsAbsent(Fence, RemoveAll(RemoveAll(text, JsonFence), Fence));
  }

  /** A fence-free text is only stripped. */
  lemma CleanPlain(text: string)
    requires '`' !in text
    ensures CleanFences(text) == Strip(text)
  {
    NoBacktickNoFence(text, JsonFence);
    RemoveAllAbsent(text, JsonFence);
    NoBacktickNoFence(text, Fence);
    RemoveAllAbsent(text, Fence);
  }

  lemma NoBacktickNoFence(text: string, pat: string)
    requires '`' !in text && pat != [] && pat[0] == '`'
    ensures !Occurs(pat, text)
  {
    forall i | 0 <= i <= |text| - |pat| && OccursAt(pat, text, i) ensures false {
    }
  }

  /** Text without a fence has no "```json" either. */
  lemma NoJsonFence(c: string)
    requires !Occurs(Fence, c)
    ensures !Occurs(JsonFence, c)
  {
    if Occurs(JsonFence, c) {
      var i :| 0 <= i <= |c| - |JsonFence| && OccursAt(JsonFence, c, i);
      assert c[i..i + 3] == c[i..i + 7][..3];
      assert OccursAt(Fence, c, i);
    }
  }

  /** Cleaning is idempotent. */
  lemma CleanIdempotent(text: string)
    ensures CleanFences(CleanFences(text)) == CleanFences(text)
  {
    var c := CleanFences(text);
    CleanedHasNoFence(text);
    NoJsonFence(c);
    RemoveAllAbsent(c, JsonFence);
    RemoveAllAbsent(c, Fence);
    StripUnchanged(c, IsSpace);
  }

  /** A fence-free body between "```json" and "```" comes back stripped. */
  lemma CleanFenced(body: string)
    requires '`' !in body
    ensures CleanFences(JsonFence + body + Fence) == Strip(body)
  {
    var text := JsonFence + body + Fence;
    assert text == JsonFence + (body + Fence);
    RemoveAllPrefix(JsonFence, body + Fence);
    RemoveAllBefore(body, Fence, JsonFence);
    assert RemoveAll(Fence, JsonFence) == Fence;
    var t1 := RemoveAll(text, JsonFence);
    assert t1 == body + Fence;
    RemoveAllBefore(body, Fence, Fence);
    RemoveAllPrefix(Fence, []);
    assert Fence + [] == Fence;
    assert RemoveAll(Fence, Fence) == [];
    assert RemoveAll(t1, Fence) == body;
  }

  // ---------------------------------------------------------------------------
  // Results

  /** `_fix_json_with_llm(text)`: the repair model's reply, cleaned and
      parsed; when the reply fails or does not parse, the text itself with
      the error message. */
  function FixJson(parse: Parser, repair: string -> Result<string, string>, text: string): (r: Json)
    ensures repair(text).Ok? && parse(CleanFences(repair(text).value)).Ok? ==>
      r == parse(CleanFences(repair(text).value)).value
    ensures repair(text).Err? ==>
      r == Object([("content", String(text)), ("parsing_error", String(repair(text).error))])
    ensures repair(text).Ok? && parse(CleanFences(repair(text).value)).Err? ==>
      r == Object([("content", String(text)), ("parsing_error", String(parse(CleanFences(repair(text).value)).error))])
  {
    match repair(text)
    case Err(e) => Object([("content", String(text)), ("parsing_error", String(e))])
    case Ok(reply) =>
      match parse(CleanFences(reply))
      case Ok(v) => v
      case Err(e) => Object([("content", String(text)), ("parsing_error", String(e))])
  }

  /** `scrape` given the chain's answer (or the message of the exception it
      raised): with an output format, a text answer is cleaned and parsed,
      falling back on the repair model; an answer that is already a dict is
      returned; anything else is reported. Without an output format the
      answer is wrapped as `{"content": answer}`. */
  function Scrape(pdf: Pdf, parse: Parser, repair: string -> Result<string, string>, answer: Result<Json, string>)
    : (r: Json)
    ensures answer.Err? ==> r == Object([("error", String(answer.error))])
    ensures answer.Ok? && !Truthy(pdf.outputFormat) ==> r == Object([("content", answer.value)])
    ensures answer.Ok? && Truthy(pdf.outputFormat) && answer.value.String? ==>
      var cleaned := CleanFences(answer.value.s);
      r == if parse(cleaned).Ok? then parse(cleaned).value else FixJson(parse, repair, cleaned)
    ensures answer.Ok? && Truthy(pdf.outputFormat) && answer.value.Object? ==> r == answer.value
    ensures answer.Ok? && Truthy(pdf.outputFormat) && !answer.value.String? && !answer.value.Object? ==>
      r == Object([("error", String("Unexpected response format")), ("content", answer.value)])
  {
    match answer
    case Err(e) => Object([("error", String(e))])
    case Ok(response) =>
      if !Truthy(pdf.outputFormat) then Object([("content", response)])
      else if response.String? then
        var cleaned := CleanFences(response.s);
        match parse(cleaned)
        case Ok(v) => v
        case Err(_) => FixJson(parse, repair, cleaned)
      else if response.Object? then response
      else Object([("error", String("Unexpected response format")), ("content", response)])
  }

  /** A fenced JSON answer is returned as what its body parses to, unchanged. */
  lemma ScrapeFenced(pdf: Pdf, parse: Parser, repair: string -> Result<string, string>, body: string)
    requires Truthy(pdf.outputFormat) && '`' !in body
    requires parse(Strip(body)).Ok?
    ensures Scrape(pdf, parse, repair, Ok(String(JsonFence + body + Fence))) == parse(Strip(body)).value
  {
    CleanFenced(body);
  }

  /** When the answer does not parse and neither does the repair, the result
      keeps the cleaned answer and the parser's message, and nothing else. */
  lemma ScrapeUnrepaired(pdf: Pdf, parse: Parser, repair: string -> Result<string, string>, text: string)
    requires Truthy(pdf.outputFormat)
    requires parse(CleanFences(text)).Err?
    requires repair(CleanFences(text)).Ok?
    requires parse(CleanFences(repair(CleanFences(text)).value)).Err?
    ensures var r := Scrape(pdf, parse, repair, Ok(String(text)));
      r.Object? && Keys(r.members) == ["content", "parsing_error"]
      && r.members[0].1 == String(CleanFences(text))
  {
    var c := CleanFences(text);
    var r := Scrape(pdf, parse, repair, Ok(String(text)));
    assert r == FixJson(parse, repair, c);
    var e := parse(CleanFences(repair(c).value)).error;
    assert r == Object([("content", String(c)), ("parsing_error", String(e))]);
  }

  /** `extract_specific_info` given the chain's text answer (or the message
      of the exception it raised): the parsed cleaned text, or the raw answer
      as `{"content": answer}` when it does not parse. */
  function ExtractSpecificInfo(parse: Parser, answer: Result<string, string>): (r: Json)
    ensures answer.Err? ==> r == Object([("error", String(answer.error))])
    ensures answer.Ok? && parse(CleanFences(answer.value)).Ok? ==> r == parse(CleanFences(answer.value)).value
    ensures answer.Ok? && parse(CleanFences(answer.value)).Err? ==> r == Object([("content", String(answer.value))])
  {
    match answer
    case Err(e) => Object([("error", String(e))])
    case Ok(response) =>
      match parse(CleanFences(response))
      case Ok(v) => v
      case Err(_) => Object([("content", String(response))])
  }
}
