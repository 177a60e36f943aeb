# Power Transformation Lab scraper: a Dafny model of its core

This project models the part of the scraper that stands between the user's
configuration and the results. It models these functions and data:

- the pydantic records of the results and the content record type built from the
  configured structure;
- the two-stage coercion of the browser agent's final text into the output
  envelope, and the result dict assembled around it;
- the task text rendered from the task templates with `str.format`;
- the dot-path configuration lookup and the local run settings parsed from
  the loaded profile;
- the LLM settings read and validated at import time, and `get_llm_config`.
  Both settings modules are modelled: `app/utils/config/llm.py` and the older
  `app/utils/config.py`.
- the PDF scraper's construction checks, query text, markdown-fence cleaning
  and result shapes;
- the file-name slug of a saved page, and the `trace.json` bookkeeping of
  the browser step hook (webpage numbering, per-step history, the save
  decision).

Values are modelled as a JSON datatype. A dict is a sequence of (key, value)
pairs in insertion order. `d.get(k)` finds the first binding of `k`, and
`d[k] = v` keeps an existing key in its place and appends a new one. Many
other parts of the program become parameters: `json.loads`, pydantic's JSON
parser, the agent's final text, the PDF chain's answer, the repair model's
reply, file existence, environment variables and `json.dumps`. Text is
`seq<char>`. `str()` and `repr()` of values, `strip`, `replace(x, "")`,
`split`, `join` and `int()` are modelled in `PyText`, for the inputs the
code meets: `repr` escapes the unprintable characters of Latin-1 and of the
ranges `PyText.Unprintable` lists, and `int()` reads ASCII digits without
underscores. The section on what is left out names the rest.

Modules, one per component:

| file | module | models |
|---|---|---|
| wrappers.dfy | Wrappers | `Option`, `Result` |
| json.dfy | Json | values, ordered dicts, lookup, assignment, truthiness |
| pytext.dfy | PyText | the string operations the code uses |
| validation.dfy | Validation | pydantic validation followed by `model_dump` |
| content_schema.dfy | ContentSchema | `build_content_model` |
| output_models.dfy | OutputModels | `ScraperOutput`, `ScraperOutputList`, `Citation` |
| text_models.dfy | TextModels | the text models' `Citation` and `ScrapedResult` |
| scraper_models.dfy | ScraperModels | `ScrapeRequest` |
| strformat.dfy | StrFormat | `str.format` with keyword fields; templates as literal text and holes |
| catalogue.dfy | Catalogue | a task-template dict and `.get(name, default)` |
| task_templates.dfy | TaskTemplates | the current two-entry catalogue |
| legacy_task_config.dfy | LegacyTaskConfig | the older four-entry catalogue |
| tasks.dfy | Tasks | `Task.from_template` |
| browser_scraper.dfy | BrowserScraper | `WebScraper` construction, coercion, the result dict |
| config_manager.dfy | ConfigManager | `get`, `get_all`, `get_secret` |
| local_config.dfy | LocalConfig | `parse_local_config` |
| llm_config.dfy | LlmConfig | the LLM settings, their checks, `get_llm_config`, `RUN_MAX_STEPS` |
| pdf_scraper.dfy | PdfScraper | `PDFScraper` without its retrieval chain |
| slug.dfy | Slug | the slug of `save_to_pdf` |
| trace_hooks.dfy | TraceHooks | `save_page_content` and the trace it keeps |

In a few places the code does less than its documentation or its names
suggest. The model follows the code:

- The content record's fields are all required, because `create_model` is
  given `(type, ...)`.
- The content list key of `ScraperOutput` is `content`.
- The docstring of `scrape` in `main.py` (line 53) names the templates
  default, summary, detailed and qa. The current task catalogue has only
  `default` and `tabular_extraction`. So the PDF scraper's default template
  `default_pdf` cannot be rendered (`PdfScraper.DefaultTemplateFails`).
- The tabular template's pagination and filter lines already start with
  "4. If pagination exists, navigate through at least the first" and "5. If
  filters are available, apply". The sentences put into them start with the
  same numbered lead-ins, so the task text repeats them (see the findings below).

## Model

| member | source | states |
|---|---|---|
| Json.Put | app/services/browser_use_scraper.py:136-139 | Dict assignment: an existing key keeps its place and a new key goes last. The assigned key then maps to the new value, and every other key maps to what it did before. |
| Json.PutKeepsKeysUnique | app/services/browser_use_scraper.py:136-139 | Assigning into a dict with distinct keys never creates a duplicate key. |
| Json.LookupAppend | app/utils/config/local.py:171-180 | In two dicts' members laid end to end, a key is found in the first part if it is there, otherwise in the second. |
| Validation.ValidateText | app/services/browser_use_scraper.py:113-115 | `model_validate_json`: text that does not parse fails with one JSON-invalid issue at the root. Text that parses is validated as its parsed value. |
| Validation.ValidateFieldsSpec | app/models/output_format_models.py:16-36 | A model's fields validate together exactly when each declared field validates on its own. Each dumped field is that field's own result. |
| Validation.ModelAccepts | app/models/output_format_models.py:16-36 | A model accepts an object exactly when every declared field is supplied: present with a valid value, or absent and defaulted. |
| Validation.ModelDump | app/services/browser_use_scraper.py:133 | `model_dump` of an accepted object lists every declared field in declaration order. Each value is the validated input or the field's default. |
| Validation.LeafAccepts | app/models/text_models.py:4-9 | What `str`, `int`, `float`, `bool`, `Any`, `dict` and `Optional` accept in strict mode. An int is the only value a `float` field accepts besides a float. |
| Validation.ListAccepts | app/models/output_format_models.py:38-43 | A `List[T]` field accepts exactly the arrays all of whose elements `T` accepts. Its dump is the element-wise dump. |
| Validation.ValidatedConforms | app/services/browser_use_scraper.py:113-133 | Whatever validation returns has the canonical dumped shape of the type. |
| Validation.ConformingIsFixed | app/services/browser_use_scraper.py:113-133 | A value of canonical dumped shape validates to itself, so dumping and re-validating loses nothing. |
| Validation.ValidateIdempotent | app/services/browser_use_scraper.py:113-133 | Validating a validated value changes nothing. |
| ContentSchema.ParseTagName | app/utils/config/local.py:66-71 | Each of the four type names of the type map is recognised as its own type. |
| ContentSchema.BuildFields | app/utils/config/local.py:73-74 | Builds one field per configured entry, in order, each with its mapped type. Fails exactly when some entry names no known type, and reports the first such entry. |
| ContentSchema.BuildContentModel | app/utils/config/local.py:55-77 | A falsy structure gives the one-field text record. A structure that is not a mapping is an error. Otherwise the first mapping entry names the record. |
| ContentSchema.ContentAccepts | app/utils/config/local.py:74-76 | The created record accepts an object exactly when every configured field is present with a value of its tag's type. |
| ContentSchema.ToTypeWellFormed | app/utils/config/local.py:74-76 | A record with distinct field names is a well-formed model descriptor. |
| ContentSchema.BuiltRoundTrip | app/utils/config/local.py:55-77 | What a record built from a configuration accepts is dumped canonically, and re-validates to itself. |
| OutputModels.OutputFormat | app/models/output_format_models.py:5 | The schema given to the agent is the list envelope around the configured content record. It exists exactly when the content record can be built. |
| OutputModels.ScraperOutputAccepts | app/models/output_format_models.py:16-36 | `ScraperOutput` accepts an object exactly when `content` is a list of valid records, and `format_type` and `summary` are absent or of their types. |
| OutputModels.ScraperOutputDefaults | app/models/output_format_models.py:29-36 | A dumped output has exactly `content`, `format_type`, `summary`, in order. An absent `format_type` is `"text"` and an absent `summary` is null. |
| OutputModels.ScraperOutputListAccepts | app/models/output_format_models.py:38-43 | The envelope accepts an object exactly when `outputs` is a list of valid outputs. |
| OutputModels.CitationAccepts | app/models/output_format_models.py:7-13 | An output citation needs all three strings. |
| TextModels.CitationAccepts | app/models/text_models.py:4-9 | A text citation needs `text`, `source_url` and a numeric `confidence_score`. `selector_path` is optional. |
| TextModels.SelectorPathDefault | app/models/text_models.py:8 | An absent `selector_path` is dumped as null. |
| TextModels.ConfidenceMustBeNumeric | app/models/text_models.py:9 | A textual confidence is rejected, whatever else is present (under strict validation, which the section on what is left out qualifies). |
| TextModels.ScrapedResultAccepts | app/models/text_models.py:12-18 | A result needs any `content`, a list of valid citations, and string `format_type`, `prompt` and `url`. |
| TextModels.EmptyCitationsAccepted | app/models/text_models.py:15 | A result with an empty citation list is accepted. |
| ScraperModels.ScrapeRequestAccepts | app/models/scraper_models.py:22-26 | A request needs a string `url` and a string `prompt`. `additional_context` is absent, null or a dict. |
| ScraperModels.AdditionalContextDefault | app/models/scraper_models.py:26 | An absent `additional_context` is dumped as null. |
| StrFormat.CloseAt | app/models/tasks_models.py:44-51 | Finds the first closing brace at or after a position. None means there is no closing brace from there on. |
| StrFormat.Fill | app/models/tasks_models.py:44-51 | The reference meaning of a template: filling succeeds exactly when every hole has an argument. Otherwise it fails on a missing hole name. |
| StrFormat.FormatRender | app/models/tasks_models.py:44-51 | `str.format` of a rendered template equals filling it: escaped literal text comes back as written, and each hole gets its argument. |
| StrFormat.FormatSucceeds | app/models/tasks_models.py:44-51 | Formatting a template raises no `KeyError` exactly when every placeholder has an argument. |
| StrFormat.FormatEscaped | app/models/tasks_models.py:26-28 | Text whose braces are doubled formats to itself, in front of whatever follows. |
| StrFormat.FillAppend | app/models/tasks_models.py:44-51 | Filling two templates laid end to end concatenates the two fills. |
| StrFormat.FillAround | app/models/tasks_models.py:44-51 | In a filled template, a hole's argument appears between the literal texts on either side of it. |
| StrFormat.PlaceholdersSpec | app/models/tasks_models.py:44-51 | A name is a placeholder exactly when some segment is a hole with that name. |
| Catalogue.Find | app/templates/task_templates.py:43-53 | An entry is found exactly when its name is among the catalogue's names, and it is that name's entry. |
| Catalogue.Get | app/templates/task_templates.py:43-53 | `.get(name, default)`: the named entry if there is one, else the `default` entry. |
| TaskTemplates.GetTaskTemplate | app/templates/task_templates.py:43-53 | The two known names give their own entries. Any other name gives the default template. |
| TaskTemplates.AvailableTemplates | app/templates/task_templates.py:55-62 | The names are `default` and `tabular_extraction`, in that order. |
| TaskTemplates.DefaultPlaceholders | app/templates/task_templates.py:9-27 | The default template's only placeholder is `prompt`. |
| TaskTemplates.TabularPlaceholders | app/templates/task_templates.py:28-40 | The tabular template's placeholders are exactly its six fields. |
| TaskTemplates.TemplateArguments | app/templates/task_templates.py:8-41 | The default template formats exactly when `prompt` is given. The tabular template formats exactly when all six fields are given. |
| TaskTemplates.NoOutputFormats | app/templates/task_templates.py:8-41 | Neither current template carries an output format. |
| LegacyTaskConfig.GetTaskTemplate | app/utils/task_config.py:141-151 | A known name gives its own entry. Any other name gives the default template. |
| LegacyTaskConfig.AvailableTemplates | app/utils/task_config.py:153-160 | The names are `default`, `summary`, `detailed`, `qa`, in declaration order. |
| LegacyTaskConfig.OutputFormatPresence | app/utils/task_config.py:8-139 | `default` has no output format, and each other entry has one. |
| LegacyTaskConfig.PlaceholderSets | app/utils/task_config.py:8-139 | `default` uses only `prompt`. The other three use `prompt` and `additional_context`. |
| LegacyTaskConfig.OutputFormatsUnescape | app/utils/task_config.py:28-139 | Each output format formats to its JSON example with single braces, whatever the arguments. |
| Tasks.PagesSentence | app/models/tasks_models.py:37-42 | `no_pages == "all"` asks for every page. An int or bool asks for that many pages. Anything else asks for no pagination. |
| Tasks.FilterSentence | app/models/tasks_models.py:31-34 | The filter sentence is empty exactly when `filters` is `None`. |
| Tasks.Key | app/models/tasks_models.py:29-36 | `prompt[key]` succeeds exactly when the key is present, and then gives its value. Otherwise it fails with that key. |
| Tasks.Gather | app/models/tasks_models.py:29-36 | Reading keys in turn gives their values when all are present. Otherwise it fails on the first missing key. |
| Tasks.TabularArgs | app/models/tasks_models.py:44-51 | The six format arguments: the four prompt values as `str()` of themselves, and the two sentences. |
| Tasks.FromTemplate | app/models/tasks_models.py:12-57 | A task records its template name. A name other than the two the code handles fails with an unbound task. |
| Tasks.DefaultTask | app/models/tasks_models.py:25-28 | The `default` task is the default template with `str(prompt)` in the prompt's place. |
| Tasks.TabularTask | app/models/tasks_models.py:29-51 | A complete tabular prompt gives the tabular template filled with that prompt's arguments. |
| Tasks.TabularFailure | app/models/tasks_models.py:29-36 | The tabular task fails exactly when the prompt is not a dict or lacks one of the six keys. A non-dict fails as not subscriptable, and a missing key fails on the first one read. |
| Tasks.PagesSentenceInTask | app/models/tasks_models.py:37-51 | The pagination sentence appears in the tabular task between its fixed surrounding texts. |
| Tasks.FilterSentenceInTask | app/models/tasks_models.py:31-51 | The filter sentence appears in the tabular task between its fixed surrounding texts. |
| Tasks.PaginationLeadRepeated | app/models/tasks_models.py:36-51 | For every complete tabular prompt, the task holds "4. If pagination exists, navigate through at least the first " directly followed by "4. ": the pagination line's lead-in repeated. |
| Tasks.FiltersLeadRepeated | app/models/tasks_models.py:31-51 | For every tabular prompt whose `filters` is not `None`, the task holds "5. If filters are available, apply " twice in a row. |
| Tasks.IntendedTabularTask | app/templates/task_templates.py:28-40 | With the two holes standing alone on their lines, the pagination sentence is a whole line of the task, and so is the filter sentence. |
| Tasks.TaskTemplateNames | app/models/tasks_models.py:68-76 | The available template names are those of the catalogue. |
| BrowserScraper.ContextText | app/services/browser_use_scraper.py:40-42 | The agent's context is `str(context)` for a truthy context, else `"None provided"`. |
| BrowserScraper.InitialActions | app/services/browser_use_scraper.py:59-61 | The agent first opens the url, and then runs the caller's actions in their order. |
| BrowserScraper.Init | app/services/browser_use_scraper.py:24-61 | Construction checks the output format, then the url, then builds the task. It succeeds exactly when all three succeed, and keeps what it was given. |
| BrowserScraper.Coerce | app/services/browser_use_scraper.py:112-130 | The text is validated as it is. When that fails, the parsed value is validated wrapped as `{"outputs": [value]}`. When both fail, the first error is raised. |
| BrowserScraper.Assemble | app/services/browser_use_scraper.py:133-139 | The result dict maps `task_template` and `prompt` to the scraper's values. Every other key maps to what the dump gave it. |
| BrowserScraper.AssembleKeys | app/services/browser_use_scraper.py:133-139 | The dumped keys keep their places, and at most the two new keys follow, in order. |
| BrowserScraper.AssembleKeepsKeysUnique | app/services/browser_use_scraper.py:133-139 | Assembling never duplicates a key. |
| BrowserScraper.Scrape | app/services/browser_use_scraper.py:105-147 | An empty or missing final text gives the empty result. Otherwise the text is coerced and assembled, or the coercion error is raised. |
| BrowserScraper.WrappedSingleOutput | app/services/browser_use_scraper.py:116-127 | With the list envelope as schema, a text holding one valid output is accepted as a one-element list. |
| BrowserScraper.CoercedConforms | app/services/browser_use_scraper.py:112-133 | Whatever is coerced is a canonical dump of the schema. |
| BrowserScraper.EmptyResultShape | app/services/browser_use_scraper.py:171-187 | The empty result has exactly six distinct keys, in source order, and no `outputs`. |
| ConfigManager.Resolve | app/utils/config_manager.py:93-97 | Following no keys gives the value itself. |
| ConfigManager.Get | app/utils/config_manager.py:74-99 | `get(path, default)` gives the value the dot path reaches, or the default when the path leaves the loaded dicts. |
| ConfigManager.Walk | app/utils/config_manager.py:93-99 | The loop follows the keys one dict at a time. It gives the value reached, or the default at the first step that is not a key of a dict. |
| ConfigManager.GetAll | app/utils/config_manager.py:101-111 | `get_all(name)` gives the named config, or an empty dict when that config is not loaded. |
| ConfigManager.GetSecret | app/utils/config_manager.py:113-129 | A set environment variable named by the caller wins. Otherwise the value at the path, or `None`. |
| ConfigManager.UnknownConfig | app/utils/config_manager.py:87-88 | A path whose first part names no loaded config reaches nothing. |
| ConfigManager.WholeConfig | app/utils/config_manager.py:85-91 | A path without a dot gives the whole config. |
| ConfigManager.NestedPath | app/utils/config_manager.py:85-97 | A path joined from dot-free parts reaches exactly what following those parts from the named config reaches. |
| ConfigManager.MissingStep | app/utils/config_manager.py:93-97 | A step that is not a key of a dict ends the walk with nothing, whatever keys follow. |
| LocalConfig.Setting | app/utils/config/local.py:93-104 | A setting is the value at its path, or `None`. |
| LocalConfig.ContextLines | app/utils/config/local.py:131-134 | A JSON context gives one `key: str(value)` line per member, in order. |
| LocalConfig.FormatContext | app/utils/config/local.py:122-138 | A falsy context is `None`. A non-dict raises. A dict with a falsy value is `None`. A non-JSON value is kept as it is. |
| LocalConfig.JsonContext | app/utils/config/local.py:127-136 | A JSON context that does not parse is kept as text. A parsed dict becomes its `key: value` lines. A parsed non-dict raises. |
| LocalConfig.ContextLinesRoundTrip | app/utils/config/local.py:131-134 | Without newlines in keys and values, the context text splits back into its lines. |
| LocalConfig.RewriteAction | app/utils/config/local.py:143-152 | Rewriting an action succeeds exactly when the action is a non-empty dict. |
| LocalConfig.RewriteActions | app/utils/config/local.py:141-153 | Rewriting a list succeeds exactly when each action rewrites. It never yields more actions than it was given. |
| LocalConfig.RewriteAppend | app/utils/config/local.py:141-153 | Rewriting works item by item: the rewrite of two lists laid end to end is the two rewrites laid end to end. |
| LocalConfig.RewriteSingle | app/utils/config/local.py:144-152 | A `scroll` action becomes a scroll by its amount. `go_to_url` becomes opening that url. Any other action is dropped. |
| LocalConfig.InitialActions | app/utils/config/local.py:141-153 | A falsy setting is kept as it is. A value that is not a list raises. A list succeeds exactly when every action rewrites; the result is the list of rewritten actions, and otherwise the first failing action's error. |
| LocalConfig.TemplateName | app/utils/config/local.py:156-162 | The configured template name is used when it is available. Otherwise the name is `default`. |
| LocalConfig.ParseLocalConfig | app/utils/config/local.py:80-180 | Without a truthy url, or without a truthy prompt, the result is an empty dict. With both, it succeeds exactly when the context formats and the initial actions rewrite, and otherwise raises the context's error first, then the actions'. |
| LocalConfig.ProfileSetting | app/utils/config/local.py:93-104 | A plain setting is `profile -> scraper -> key` in the loaded profile, or its default. |
| LocalConfig.SettingsKeys | app/utils/config/local.py:171-180 | The complete result has exactly the eight setting names as keys, in source order. |
| LocalConfig.SettingsShape | app/utils/config/local.py:107-180 | A successful result is non-empty exactly when the url and the prompt are truthy. A non-empty one has the eight settings in order, the url and prompt, an available template name and the debug flag. |
| LocalConfig.CompleteSettings | app/utils/config/local.py:107-180 | With a truthy url and prompt, a successful result is the settings dict of the values read: the formatted context, the chosen template, the rewritten actions, the profile name and the output path. |
| LocalConfig.OutputPathOverride | app/utils/config/local.py:93-104 | For `output_path`, a truthy `local.output_path` wins. Otherwise the value is `profile.scraper.output_path`, or the default when that is missing or null. |
| LocalConfig.LocalOutputPath | app/utils/config/local.py:96-100 | `local.output_path` is the `output_path` key of the `local` config, or `None`. |
| LocalConfig.ScraperPath | app/utils/config/local.py:102 | `profile.scraper.<key>` is the key under `scraper` in the `profile` config, or `None`. |
| LlmConfig.Read | app/utils/config/llm.py:10-35 | Each of the seven settings and six secrets is the value its path reaches, taken as it is. A missing provider, model or secret is `None`; a missing hyperparameter takes its documented default. |
| LlmConfig.KeyError | app/utils/config/llm.py:37-49 | The key check passes exactly when the provider's key is present. A failure is a missing-key error for a supported provider. |
| LlmConfig.Validate | app/utils/config/llm.py:10-49 | Checks the provider first, then the model, then the key. A pass keeps the settings unchanged. |
| LlmConfig.Load | app/utils/config/llm.py:10-49 | Importing gives the settings read from the configuration, or fails on a missing provider first. |
| LlmConfig.Base | app/utils/config/llm.py:53-61 | The base dict has the seven setting keys in source order. |
| LlmConfig.GetLlmConfig | app/utils/config/llm.py:51-77 | `get_llm_config` succeeds exactly for the five supported providers. Any other provider is rejected as unsupported. |
| LlmConfig.LlmConfigKeys | app/utils/config/llm.py:53-73 | The dict's keys are the base keys, then `api_key`, then `endpoint` for Azure only. |
| LlmConfig.LlmConfigValues | app/utils/config/llm.py:53-61 | Each setting reaches the dict unchanged, under its own key. |
| LlmConfig.LlmConfigKey | app/utils/config/llm.py:63-73 | `api_key` is the provider's own key. For Azure, `endpoint` is the Azure endpoint. |
| LlmConfig.ValidatedKeyPresent | app/utils/config/llm.py:38-73 | Settings that pass the current check give a truthy `api_key`, or for Azure a truthy key or endpoint. |
| LlmConfig.LegacyDeepseekUnchecked | app/utils/config.py:96-97 | The legacy module accepts `deepseek` settings that have only an OpenAI key, and hands on a `None` key. The current module rejects them. |
| LlmConfig.VariantsAgree | app/utils/config.py:95-103 | The two modules' key checks agree on every provider except `deepseek`. |
| LlmConfig.NoLlmConfig | app/utils/config/llm.py:10-12 | Without an `llm_config` file, importing fails on the provider, in either module. |
| LlmConfig.PyInt | app/utils/config.py:17-20 | `int()` keeps an int, and rejects `None`, lists and dicts. |
| LlmConfig.PyIntOfText | app/utils/config.py:17-20 | `int(str(i)) == i` for every integer. |
| LlmConfig.PyIntOfFloat | app/utils/config.py:17-20 | `int()` of a float keeps its integer part with its sign, truncating toward zero: `int(-12.5) == -12`. |
| LlmConfig.MaxSteps | app/utils/config.py:17-20 | `RUN_MAX_STEPS` is 100 when unset. A configured value is read through `int()`, and an int is kept as it is. |
| LlmConfig.MaxStepsConfigured | app/utils/config.py:17-20 | A limit written as numeral text or as a float is read as its integer (`"25"` and `25.9` give 25). A stored `None` raises. |
| LlmConfig.NoAgentConfig | app/utils/config.py:17-20 | Without an `agent_config` file, the step limit is 100. |
| PdfScraper.FirstMissing | app/services/pdf_scraper.py:57-58 | Finds nothing exactly when every path is non-empty and names a file. Otherwise it finds the first path, in list order, that is empty or names no file; every path before it passes. |
| PdfScraper.Init | app/services/pdf_scraper.py:28-69 | Checks the paths, then the prompt, then every file, then the task, in that order. Success keeps the inputs and lists a single path. |
| PdfScraper.DefaultTemplateFails | app/services/pdf_scraper.py:32 | With the default template name `default_pdf`, construction always fails at the task. |
| PdfScraper.FormatText | app/services/pdf_scraper.py:204-229 | The requested structure is the dumped output format, or a fixed sentence when there is none. |
| PdfScraper.ContentTask | app/services/pdf_scraper.py:204-229 | The query text carries the task on its labelled line. |
| PdfScraper.ContentPrompt | app/services/pdf_scraper.py:204-229 | The query text carries the prompt on its labelled line. |
| PdfScraper.ContentContext | app/services/pdf_scraper.py:204-229 | The query text carries the context on its labelled line. |
| PdfScraper.ContentFormat | app/services/pdf_scraper.py:204-229 | The query text ends with the requested structure, after the instructions. |
| PdfScraper.NoFenceLeft | app/services/pdf_scraper.py:112 | After fences are deleted, no three backticks in a row remain. |
| PdfScraper.CleanIdempotent | app/services/pdf_scraper.py:112 | Cleaning fences is idempotent. |
| PdfScraper.CleanFenced | app/services/pdf_scraper.py:112 | A fence-free body between "```json" and "```" comes back stripped. |
| PdfScraper.FixJson | app/services/pdf_scraper.py:232-265 | A repair reply that parses gives the parsed value. A failed repair or an unparseable reply gives the text with the error message. |
| PdfScraper.Scrape | app/services/pdf_scraper.py:90-134 | An exception gives `{"error": msg}`. With no output format, the answer is wrapped as content. A text answer is cleaned and parsed, falling back on repair. A dict answer is returned as it is. Anything else is reported as unexpected. |
| PdfScraper.ScrapeFenced | app/services/pdf_scraper.py:109-115 | A fenced JSON answer is returned as what its body parses to. |
| PdfScraper.ScrapeUnrepaired | app/services/pdf_scraper.py:116-120 | When neither the answer nor its repair parses, the result holds exactly the cleaned answer and the parser's message. |
| PdfScraper.ExtractSpecificInfo | app/services/pdf_scraper.py:267-294 | Gives the parsed cleaned answer, or the raw answer as content when it does not parse, or the exception's message. |
| Slug.SchemeOf | app/utils/scraper_utils.py:8 | The scheme match is exactly the `http://` or `https://` the url starts with. |
| Slug.WwwKept | app/utils/scraper_utils.py:8 | As written, the pattern cuts the scheme but leaves `www.`. |
| Slug.WwwCut | app/utils/scraper_utils.py:8 | With the pattern as intended, `www.` is cut together with the scheme. |
| Slug.Collapse | app/utils/scraper_utils.py:9 | Collapsing runs keeps only letters, digits and dashes, never two dashes in a row. It starts with a dash exactly when the text starts with a separator. |
| Slug.Lower | app/utils/scraper_utils.py:9 | Lower-casing works character by character and keeps the length. |
| Slug.Truncate | app/utils/scraper_utils.py:12 | The slug is at most 50 characters long. A short slug is unchanged, and a long one keeps its first 50 characters. |
| Slug.SlugShape | app/utils/scraper_utils.py:8-12 | Every slug is at most 50 characters of lower-case letters, digits and single dashes, and does not start with a dash. |
| Slug.CollapseKeepsAlnums | app/utils/scraper_utils.py:9 | Collapsing runs keeps every letter and digit, in order. |
| Slug.StripKeepsAlnums | app/utils/scraper_utils.py:9 | Stripping dashes keeps every letter and digit. |
| Slug.LowerAlnums | app/utils/scraper_utils.py:9 | The letters and digits of lower-cased text are the lower-cased letters and digits. |
| Slug.SlugKeepsAlnums | app/utils/scraper_utils.py:8-12 | A slug that is not cut short holds exactly the lower-cased letters and digits of the cut url. |
| TraceHooks.Number | app/services/hooks/browser_use_scraper_hooks.py:136-143 | A new url gets the next number. A known url keeps its number. An absent map starts at 1. |
| TraceHooks.NumberKeepsNumbering | app/services/hooks/browser_use_scraper_hooks.py:136-143 | The numbers stay exactly 1..n, each url once, and existing entries stay in place. |
| TraceHooks.NumberOfUrl | app/services/hooks/browser_use_scraper_hooks.py:136-143 | The url's number is its old number, or one more than the count of urls known before. |
| TraceHooks.InitTrace | app/services/hooks/browser_use_scraper_hooks.py:96-168 | Returns the loaded trace and the updated one: the url numbered, the urls replaced by the set given, and the step recorded. |
| TraceHooks.RecordStepEntry | app/services/hooks/browser_use_scraper_hooks.py:149-160 | Recording a step makes its entry exactly `action` and `errors`, dropping whatever the loaded entry held: the membership test compares an int with the loaded text keys and always fails. The keys keep their order, and every other step is left alone. |
| TraceHooks.RecordNewStep | app/services/hooks/browser_use_scraper_hooks.py:152-160 | A step not yet in the history is appended as the last entry, holding only `action` and `errors`. |
| TraceHooks.RecordKeepsPrevious | app/services/hooks/browser_use_scraper_hooks.py:149-160 | Recording a step leaves the previous step's entry as it was. |
| TraceHooks.PagePath | app/services/hooks/browser_use_scraper_hooks.py:196-200 | A truthy page path is kept. Otherwise the previous step's path is used, or `None`. A missing previous step raises. |
| TraceHooks.FinalizeEntry | app/services/hooks/browser_use_scraper_hooks.py:171-205 | Finalizing sets the step's two paths, and leaves every other step, the numbering and the urls alone. |
| TraceHooks.FinalizeCopiesPrevious | app/services/hooks/browser_use_scraper_hooks.py:196-200 | With a falsy page path, the previous step's page path is recorded. That previous entry must exist. |
| TraceHooks.StepKeysDiffer | app/services/hooks/browser_use_scraper_hooks.py:152-153 | Different steps have different history keys. |
| TraceHooks.Decide | app/services/hooks/browser_use_scraper_hooks.py:52-68 | A failed step skips saving. With an empty trace the page is new. |
| TraceHooks.DecideNewPage | app/services/hooks/browser_use_scraper_hooks.py:52-68 | A page is saved anew exactly when the step did not fail and the url was not listed before. |
| TraceHooks.ShotPath | app/services/hooks/browser_use_scraper_hooks.py:83-85 | A screenshot path is recorded exactly when the step did not fail. |
| TraceHooks.PageFile | app/services/hooks/browser_use_scraper_hooks.py:67-80 | Only a new page passes on a PDF path. Otherwise the page path is falsy. |
| TraceHooks.RecordedPdfMatches | app/services/hooks/browser_use_scraper_hooks.py:76-80 | The recorded `webpage-N/webpage-N.pdf` is the file `save_to_pdf` writes (`webpage-N/{slug}.pdf`, `app/utils/scraper_utils.py:22`) exactly when the url's slug is `webpage-N`. |
| TraceHooks.SavedPageFile | app/services/hooks/browser_use_scraper_hooks.py:76-80 | The path the hook evidently means to record: for a new page, a string naming the slug's PDF in the page directory; in every other case exactly what the hook records now. |
| TraceHooks.SavedPdfMatches | app/utils/scraper_utils.py:16-22 | With the intended path, the trace names the file `save_to_pdf` writes, `{results}/webpage-{N}/{slug}.pdf`, for every url. |
| TraceHooks.SavePage | app/services/hooks/browser_use_scraper_hooks.py:15-93 | No url fails. A success is the trace update for the last url, followed by the save decision and finalization. |
| TraceHooks.AfterUpdate | app/services/hooks/browser_use_scraper_hooks.py:47-91 | The decision is taken on the trace as it was before the step. The page number is read from the updated map, and the trace is finalized with the paths of that decision. |
| TraceHooks.SavePageDecision | app/services/hooks/browser_use_scraper_hooks.py:52-80 | Nothing is saved for a failed step. A page is saved anew exactly when the step did not fail and its url was not in the trace before. |
| TraceHooks.SeenPageCopiesPath | app/services/hooks/browser_use_scraper_hooks.py:67-91 | On a page seen before, the step records the previous step's page file path. |
| PyText.IntToStringRoundTrip | app/services/hooks/browser_use_scraper_hooks.py:195 | `int(str(i)) == i`: step numbers written as text read back as the same number. |
| PyText.SplitJoin | app/utils/config_manager.py:85 | Splitting a join of separator-free parts gives back the parts. |
| PyText.StripUnchanged | app/services/pdf_scraper.py:112 | Text that neither starts nor ends with whitespace is unchanged by `strip`. |
| PyText.EscapeChar | app/services/pdf_scraper.py:61-63 | A character that is printable and neither the quote nor a backslash is written as itself; any other is written as an escape starting with a backslash. Every character written is printable. |
| PyText.ReprPrintable | app/services/pdf_scraper.py:61-63 | `repr(s).isprintable()`: the `repr` of any text holds no unprintable character. |
| PyText.ReprPlain | app/services/pdf_scraper.py:61-63 | Printable text without quotes or backslashes is written as itself between single quotes. |

## Left out

- The browser agent, the LLM calls, the PDF loader, the FAISS retrieval chain and its initialisation (`_init_qa_chain`) are not modelled. Their outputs are inputs: the final text, the chain's answer and the repair reply.
- The wording of the repair prompt in `_fix_json_with_llm` is not modelled. Only the reply's handling is.
- File reads and writes, directory creation, screenshots, PDF generation and logging are not modelled. The loaded trace and the file-existence test are inputs.
- YAML loading, `load_profile_config` and `reload` are not modelled. The loaded configs are an input.
- Environment variables are an input map. The `RESULTS_PATH` check of the hook is the precondition `resultsEnv != ""`.
- pydantic's lax coercions are not modelled: string to number, number to string, and the like. Validation is strict, except that an int is accepted for a float. `AnyUrl` is modelled as a string, without URL syntax.
- TextModels.ConfidenceMustBeNumeric: holds under strict validation only. pydantic's default lax mode accepts numeric text such as "0.95" for the float `confidence`.
- Validation.Validate: an int given to a float field is dumped as its digits followed by ".0". Python's float repr differs for `abs(i) >= 10**16`, which it writes with an exponent (`1e+16`). Above `2**53`, `float()` also rounds away digits the model keeps: 9007199254740993 becomes 9007199254740992.0. Double-precision rounding is not modelled.
- PyText.Repr / PyText.ParseInt: `repr` escapes only the characters `PyText.Unprintable` lists. Python also escapes every other character that `str.isprintable` rejects beyond Latin-1: other format and control characters, unassigned code points, surrogates, and private-use characters outside the basic plane. Such characters in a context or prompt are written raw by the model. `int()` reads only ASCII digits with an optional sign. Python also accepts single underscores between digits (`"1_000"`) and non-ASCII decimal digits.
- Floats are opaque repr texts. `LlmConfig.PyInt` reads a float repr of the form `[-]digits.digits` and truncates it toward zero. Exponent forms (`1e+16`), `inf` and `nan` are left out.
- `json.dumps` followed by reparsing, in the wrapping stage of `scrape`, is taken to give back the same value.
- A JSON object with a duplicate key is read as its first binding, whereas Python keeps the last. The parsers are inputs and are taken to give objects with distinct keys. Given duplicates, `LocalConfig.ContextLines` writes one line per binding, where Python's dict would hold only the last. The one dict the code builds with a repeated key is the trace history; the next line covers it.
- TraceHooks: history keys are modelled as the step number's text throughout. The hook stores the new entry under the int `step`, beside the loaded text key of the same number. `json.dump` writes both keys as the same text, and `json.load` keeps the later entry in the earlier key's place. The model stores the fresh entry under the text key directly, which is the trace after that round trip. The dict that `initialize_trace_logging` returns, holding both keys, is not modelled; the hook reads only its url numbering.
- TraceHooks.InitTrace: `list(set(urls))` has an unspecified order, so the urls are kept as a set.
- The other browser settings of `app/utils/config.py` (lines 7-15 and 27-68) and its `DEBUG_MODE` (line 107) are not modelled. They are plain `get` calls with defaults.
- `parse_local_config` imports `DEBUG_MODE` from `app/utils/config/agent.py`, which is not part of this model. It is an input to `LocalConfig.ParseLocalConfig`.
- Chunk sizes and the text splitter of the PDF scraper are not modelled.
- `str.format` format specs and conversions (`{x:>10}`, `{x!r}`) are not modelled, because no template uses them.
- The Azure key check is modelled as written: `not key and not endpoint` rejects only when both are missing.

## Findings

| source | as written | input that shows it | evidently intended | confidence | as-written member | corrected member |
|---|---|---|---|---|---|---|
| app/utils/scraper_utils.py:8 | The raw pattern `r'^https?://(?:www\\.)?'` matches a literal backslash before any character, so `www.` is never cut. | `https://www.example.com/` gives `www-example-com` | cut `www.` with the scheme, giving `example-com` | not executed | Slug.WwwKept | Slug.WwwCut |
| app/utils/config.py:96-97 | The `deepseek` provider is checked for the OpenAI key, but `get_llm_config` passes on the DeepSeek key (lines 124-125). | `LlmConfig.DeepseekWithOpenAiKey`: provider `deepseek` with only an OpenAI key passes and gives `api_key: None` | check the DeepSeek key, as `app/utils/config/llm.py:40-41` does | not executed | LlmConfig.LegacyDeepseekUnchecked | LlmConfig.ValidatedKeyPresent |
| app/templates/task_templates.py:35-36 | The pagination and filter lines already read "4. If pagination exists, navigate through at least the first {no_pages} pages…" and "5. If filters are available, apply {filters}…". `from_template` puts whole numbered sentences into them (`app/models/tasks_models.py:34-42`). | a tabular prompt with `no_pages` "all" gives "4. If pagination exists, navigate through at least the first 4. If pagination exists, navigate through all pages and extract all data pages and extract all data" | the pagination and filter sentences are lines 4 and 5 of the task on their own | not executed | Tasks.PaginationLeadRepeated | Tasks.IntendedTabularTask |
| app/services/hooks/browser_use_scraper_hooks.py:78-80 | The hook records `webpage-{N}/webpage-{N}.pdf` as the saved page, but `save_to_pdf` names the file after the url's slug (`app/utils/scraper_utils.py:16-22`). | the url `https://example.com` on webpage 1: the file written is `webpage-1/example-com.pdf`, the path recorded is `webpage-1/webpage-1.pdf` | record the path of the file `save_to_pdf` wrote | not executed | TraceHooks.RecordedPdfMatches | TraceHooks.SavedPdfMatches |
