/** `parse_local_config`: the run settings read from the loaded profile
    (`profile.scraper.*`), with the url and prompt required, the context
    turned into text, the initial actions rewritten into agent actions and
    the template name checked against the available ones.

    The configurations, the JSON parser and `DEBUG_MODE` are inputs. */
module LocalConfig {
  import opened Wrappers
  import opened Json
  import opened PyText
  import opened ConfigManager

  /** Errors the code does not catch: `.get` on a context that is not a
      dict, `json.loads` of a value that is not text, `.items()` of parsed
      JSON that is not an object, iterating initial actions that are not a
      list, and an action that is not a non-empty dict. */
  datatype LocalError =
    | ContextNotMapping(context: Json)
    | ContextNotText(value: Json)
    | ContextNotObject(parsed: Json)
    | ActionsNotList(actions: Json)
    | ActionNotMapping(action: Json)
    | ActionEmpty

  /** `config_manager.get(path)`: the value at `path`, or `None`. */
  function Setting(configs: Configs, path: string): (r: Json)
    ensures ResolvePath(configs, path).Some? ==> r == ResolvePath(configs, path).value
    ensures ResolvePath(configs, path).None? ==> r == Null
  {
    match ResolvePath(configs, path)
    case Some(v) => v
    case None => Null
  }

  /** The inner `get_config(key, default)`: `profile.scraper.<key>` unless it
      is `None`, with a truthy `local.output_path` taking precedence for
      `output_path`. */
  function GetConfig(configs: Configs, key: string, default: Json): Json {
    if key == "output_path" && Truthy(Setting(configs, "local.output_path")) then
      Setting(configs, "local.output_path")
    else
      var v := Setting(configs, "profile.scraper." + key);
      if v != Null then v else default
  }

  /** `f"{k}: {v}"` for each member, joined by newlines. */
  function ContextLines(ms: Members): (r: seq<string>)
    ensures |r| == |ms|
    ensures forall i :: 0 <= i < |ms| ==> r[i] == ms[i].0 + ": " + Str(ms[i].1)
  {
    if ms == [] then [] else [ms[0].0 + ": " + Str(ms[0].1)] + ContextLines(ms[1..])
  }

  /** `context_config.get("value")`. */
  function ContextValue(context: Json): Json
    requires context.Object?
  {
    Lookup(context.members, "value").GetOr(Null)
  }

  /** `context_config.get("format") == "json"`. */
  predicate JsonFormat(context: Json)
    requires context.Object?
  {
    Lookup(context.members, "format") == Some(String("json"))
  }

  /** The additional context: `None` unless the context config is a dict
      with a truthy `value`; a `json` value is parsed and listed as
      `key: value` lines (see `JsonContext`); any other format passes the
      value through. */
  function FormatContext(parse: Parser, context: Json): (r: Result<Json, LocalError>)
    ensures !Truthy(context) ==> r == Ok(Null)
    ensures Truthy(context) && !context.Object? ==> r == Err(ContextNotMapping(context))
    ensures context.Object? && !Truthy(ContextValue(context)) ==> r == Ok(Null)
    ensures context.Object? && Truthy(ContextValue(context)) && !JsonFormat(context) ==> r == Ok(ContextValue(context))
  {
    if !Truthy(context) then Ok(Null)
    else if !context.Object? then Err(ContextNotMapping(context))
    else
      var value := ContextValue(context);
      if !Truthy(value) then Ok(Null)
      else if Lookup(context.members, "format").GetOr(Null) != String("json") then Ok(value)
      else if !value.String? then Err(ContextNotText(value))
      else
        match parse(value.s)
        case Err(_) => Ok(value)
        case Ok(j) =>
          if j.Object? then Ok(String(Join(ContextLines(j.members), "\n")))
          else Err(ContextNotObject(j))
  }

  /** A `json` context that parses to an object becomes its `key: value`
      lines; one that does not parse is used as plain text; one that parses
      to anything else is an error. */
  lemma JsonContext(parse: Parser, context: Json, t: string)
    requires context.Object? && JsonFormat(context) && ContextValue(context) == String(t) && t != ""
    ensures parse(t).Err? ==> FormatContext(parse, context) == Ok(String(t))
    ensures parse(t).Ok? && parse(t).value.Object? ==>
      FormatContext(parse, context) == Ok(String(Join(ContextLines(parse(t).value.members), "\n")))
    ensures parse(t).Ok? && !parse(t).value.Object? ==>
      FormatContext(parse, context) == Err(ContextNotObject(parse(t).value))
  {
    assert context.members != [];
    assert Truthy(context);
    var value := ContextValue(context);
    assert Truthy(value) && value.String? && value.s == t;
    assert Lookup(context.members, "format").GetOr(Null) == String("json");
  }

  /** One initial action rewritten: `{a: v}` with `scroll` in `a` becomes
      `{a: {"amount": v}}`, `go_to_url` becomes `{a: {"url": v}}`, and any
      other action is dropped. Only the first member of the dict counts. */
  function RewriteAction(item: Json): (r: Result<Option<Json>, LocalError>)
    ensures r.Ok? <==> item.Object? && item.members != []
  {
    if !item.Object? then Err(ActionNotMapping(item))
    else if item.members == [] then Err(ActionEmpty)
    else
      var (action, value) := item.members[0];
      if Occurs("scroll", action) then Ok(Some(Object([(action, Object([("amount", value)]))])))
      else if action == "go_to_url" then Ok(Some(Object([(action, Object([("url", value)]))])))
      else Ok(None)
  }

  /** The rewritten actions, in order; the first malformed action is the
      error. */
  function RewriteActions(items: seq<Json>): (r: Result<seq<Json>, LocalError>)
    ensures r.Ok? <==> forall i :: 0 <= i < |items| ==> RewriteAction(items[i]).Ok?
    ensures r.Ok? ==> |r.value| <= |items|
  {
    if items == [] then Ok([])
    else
      match RewriteAction(items[0])
      case Err(e) => Err(e)
      case Ok(a) =>
        match RewriteActions(items[1..])
        case Err(e) =>
          assert forall i :: 1 <= i < |items| ==> items[i] == items[1..][i - 1];
          Err(e)
        case Ok(rest) => Ok((if a.Some? then [a.value] else []) + rest)
  }

  /** The `initial_actions` setting: a falsy value is kept as it is; a list
      is rewritten. */
  function InitialActions(actions: Json): (r: Result<Json, LocalError>)
    ensures !Truthy(actions) ==> r == Ok(actions)
    ensures Truthy(actions) && !actions.Array? ==> r == Err(ActionsNotList(actions))
    ensures Truthy(actions) && actions.Array? ==>
      && (r.Ok? <==> RewriteActions(actions.items).Ok?)
      && (r.Ok? ==> r.value == Array(RewriteActions(actions.items).value))
      && (r.Err? ==> r.error == RewriteActions(actions.items).error)
  {
    if !Truthy(actions) then Ok(actions)
    else if !actions.Array? then Err(ActionsNotList(actions))
    else
      var rewritten :- RewriteActions(actions.items);
      Ok(Array(rewritten))
  }

  /** The template name: a configured name that is available, else
      `"default"`. */
  function TemplateName(configured: Json, available: seq<string>): (r: string)
    ensures configured.String? && configured.s in available ==> r == configured.s
    ensures !(configured.String? && configured.s in available) ==> r == "default"
  {
    if configured.String? && configured.s in available then configured.s else "default"
  }

  /** `parse_local_config(available_templates)`: an empty dict when the url
      or the prompt is missing or falsy; otherwise the eight settings. */
  function ParseLocalConfig(configs: Configs, available: seq<string>, parse: Parser, debugMode: Json)
    : (r: Result<Members, LocalError>)
    ensures !Truthy(GetConfig(configs, "url", Null)) ==> r == Ok([])
    ensures Truthy(GetConfig(configs, "url", Null)) && !Truthy(GetConfig(configs, "prompt", Null)) ==> r == Ok([])
    ensures Truthy(GetConfig(configs, "url", Null)) && Truthy(GetConfig(configs, "prompt", Null)) ==>
      var context := FormatContext(parse, GetConfig(configs, "context", Object([])));
      var actions := InitialActions(GetConfig(configs, "initial_actions", Array([])));
      && (r.Ok? <==> context.Ok? && actions.Ok?)
      && (context.Err? ==> r == Err(context.error))
      && (context.Ok? && actions.Err? ==> r == Err(actions.error))
  {
    var url := GetConfig(configs, "url", Null);
    var prompt := GetConfig(configs, "prompt", Null);
    if !Truthy(url) || !Truthy(prompt) then Ok([])
    else
      var context :- FormatContext(parse, GetConfig(configs, "context", Object([])));
      var actions :- InitialActions(GetConfig(configs, "initial_actions", Array([])));
      var template := TemplateName(GetConfig(configs, "task_template", String("default")), available);
      Ok(Settings(url, prompt, context, template, actions, Setting(configs, "profile.name"),
                  GetConfig(configs, "output_path", Null), debugMode))
  }

  /** The names of the settings in a complete result, in order. */
  const SettingNames: seq<string> :=
    ["url", "prompt", "additional_context", "task_template", "initial_actions",
     "profile_name", "output_path", "debug_mode"]

  /** The complete result dict, in the source's key order. */
  function Settings(url: Json, prompt: Json, context: Json, template: string, actions: Json,
                    profileName: Json, outputPath: Json, debugMode: Json): Members
  {
    [("url", url), ("prompt", prompt), ("additional_context", context),
     ("task_template", String(template)), ("initial_actions", actions),
     ("profile_name", profileName), ("output_path", outputPath), ("debug_mode", debugMode)]
  }

  /** The complete result has exactly the setting names as its keys, each
      once. */
  lemma SettingsKeys(url: Json, prompt: Json, context: Json, template: string, actions: Json,
                     profileName: Json, outputPath: Json, debugMode: Json)
    ensures Keys(Settings(url, prompt, context, template, actions, profileName, outputPath, debugMode)) == SettingNames
  {
    var ks := Keys(Settings(url, prompt, context, template, actions, profileName, outputPath, debugMode));
    assert |ks| == 8;
    forall i | 0 <= i < 8 ensures ks[i] == SettingNames[i] {
    }
  }

  /** With keys and values free of newlines, the context text splits back
      into its `key: value` lines, one per member. */
  lemma ContextLinesRoundTrip(ms: Members)
    requires ms != []
    requires forall i :: 0 <= i < |ms| ==> '\n' !in ms[i].0 && '\n' !in Str(ms[i].1)
    ensures Split(Join(ContextLines(ms), "\n"), '\n') == ContextLines(ms)
  {
    var ls := ContextLines(ms);
    forall i | 0 <= i < |ls| ensures '\n' !in ls[i] {
      NoNewlineInLine(ms[i].0, Str(ms[i].1));
    }
    SplitJoin(ls, '\n');
  }

  lemma NoNewlineInLine(k: string, v: string)
    requires '\n' !in k && '\n' !in v
    ensures '\n' !in k + ": " + v
  {
    var l := k + ": " + v;
    forall i | 0 <= i < |l| ensures l[i] != '\n' {
      if i < |k| { assert l[i] == k[i]; }
      else if i < |k| + 2 { assert l[i] == ": "[i - |k|]; }
      else { assert l[i] == v[i - |k| - 2]; }
    }
  }

  /** The actions one well-formed item contributes: none or one. */
  function Kept(item: Json): seq<Json>
    requires RewriteAction(item).Ok?
  {
    var a := RewriteAction(item).value;
    if a.Some? then [a.value] else []
  }

  /** One step of the rewrite: a non-empty list whose head and tail rewrite
      cleanly rewrites to the head's actions followed by the tail's. */
  lemma RewriteCons(items: seq<Json>)
    requires items != []
    requires RewriteAction(items[0]).Ok? && RewriteActions(items[1..]).Ok?
    ensures RewriteActions(items) == Ok(Kept(items[0]) + RewriteActions(items[1..]).value)
  {
  }

  /** The converse step: a list that rewrites cleanly has a head and a tail
      that do. */
  lemma RewriteUncons(items: seq<Json>)
    requires items != [] && RewriteActions(items).Ok?
    ensures RewriteAction(items[0]).Ok? && RewriteActions(items[1..]).Ok?
    ensures RewriteActions(items).value == Kept(items[0]) + RewriteActions(items[1..]).value
  {
  }

  /** Rewriting a list of actions rewrites its parts independently: order is
      kept and nothing is mixed. */
  lemma {:induction false} RewriteAppend(a: seq<Json>, b: seq<Json>)
    requires RewriteActions(a).Ok? && RewriteActions(b).Ok?
    ensures RewriteActions(a + b) == Ok(RewriteActions(a).value + RewriteActions(b).value)
    decreases |a|
  {
    if a == [] {
      assert a + b == b;
      assert RewriteActions(a).value == [];
      assert [] + RewriteActions(b).value == RewriteActions(b).value;
    } else {
      RewriteUncons(a);
      RewriteAppend(a[1..], b);
      RewriteAppendStep(a, b);
    }
  }

  /** The inductive step of `RewriteAppend`, with the tail's case given. */
  lemma RewriteAppendStep(a: seq<Json>, b: seq<Json>)
    requires a != [] && RewriteAction(a[0]).Ok?
    requires RewriteActions(a[1..]).Ok? && RewriteActions(b).Ok?
    requires RewriteActions(a[1..] + b) == Ok(RewriteActions(a[1..]).value + RewriteActions(b).value)
    ensures RewriteActions(a + b) == Ok(Kept(a[0]) + RewriteActions(a[1..]).value + RewriteActions(b).value)
  {
    var ab := a + b;
    HeadAndTail(a, b);
    RewriteCons(ab);
    var p := Kept(a[0]);
    var ra := RewriteActions(a[1..]).value;
    var rb := RewriteActions(b).value;
    assert RewriteActions(ab) == Ok(p + (ra + rb));
    assert p + (ra + rb) == p + ra + rb;
  }

  /** The head and the tail of two lists laid end to end. */
  lemma HeadAndTail<T>(a: seq<T>, b: seq<T>)
    requires a != []
    ensures (a + b)[0] == a[0] && (a + b)[1..] == a[1..] + b
  {
  }

  /** A single action: `scroll` actions carry an amount, `go_to_url` a url,
      and every other action disappears. */
  lemma RewriteSingle(action: string, value: Json, rest: Members)
    ensures Occurs("scroll", action) ==>
      RewriteActions([Object([(action, value)] + rest)]) == Ok([Object([(action, Object([("amount", value)]))])])
    ensures !Occurs("scroll", action) && action == "go_to_url" ==>
      RewriteActions([Object([(action, value)] + rest)]) == Ok([Object([(action, Object([("url", value)]))])])
    ensures !Occurs("scroll", action) && action != "go_to_url" ==>
      RewriteActions([Object([(action, value)] + rest)]) == Ok([])
  {
    var item := Object([(action, value)] + rest);
    assert item.members[0] == (action, value);
    var items := [item];
    assert items[0] == item && items[1..] == [];
    assert RewriteActions(items[1..]) == Ok([]);
    var amount := Object([(action, Object([("amount", value)]))]);
    var url := Object([(action, Object([("url", value)]))]);
    assert [amount] + [] == [amount] && [url] + [] == [url];
  }

  /** `output_path`: a truthy `local.output_path` wins; otherwise it is
      read like any other setting, from `profile.scraper.output_path` with
      the default for a missing or null value. `LocalOutputPath` and
      `ScraperPath` say where the two dot paths lead. */
  lemma OutputPathOverride(configs: Configs, default: Json)
    ensures Truthy(Setting(configs, "local.output_path")) ==>
      GetConfig(configs, "output_path", default) == Setting(configs, "local.output_path")
    ensures !Truthy(Setting(configs, "local.output_path")) ==>
      GetConfig(configs, "output_path", default) ==
        (if Setting(configs, "profile.scraper.output_path") != Null then Setting(configs, "profile.scraper.output_path") else default)
  {
    assert "profile.scraper." + "output_path" == "profile.scraper.output_path";
  }

  /** A plain setting is `profile -> scraper -> key` in the loaded profile,
      and the default stands in for a missing or null value. */
  lemma ProfileSetting(configs: Configs, key: string, default: Json)
    requires '.' !in key && key != "output_path"
    ensures var v := if HasKey(configs, "profile") then Resolve(Lookup(configs, "profile").value, ["scraper", key]) else None;
      GetConfig(configs, key, default) == (if v.Some? && v.value != Null then v.value else default)
  {
    ScraperPath(configs, key);
  }

  /** `config_manager.get("local.output_path")`. */
  lemma LocalOutputPath(configs: Configs)
    ensures var local := if HasKey(configs, "local") then Resolve(Lookup(configs, "local").value, ["output_path"]) else None;
      Setting(configs, "local.output_path") == (if local.Some? then local.value else Null)
  {
    NestedPath(configs, "local", ["output_path"]);
    assert Join(["local"] + ["output_path"], ".") == "local.output_path";
  }

  /** `config_manager.get(f"profile.scraper.{key}")`. */
  lemma ScraperPath(configs: Configs, key: string)
    requires '.' !in key
    ensures var v := if HasKey(configs, "profile") then Resolve(Lookup(configs, "profile").value, ["scraper", key]) else None;
      Setting(configs, "profile.scraper." + key) == (if v.Some? then v.value else Null)
  {
    NestedPath(configs, "profile", ["scraper", key]);
    var parts := ["profile"] + ["scraper", key];
    assert parts[1..] == ["scraper", key];
    assert Join(parts[2..], ".") == key;
    assert Join(parts, ".") == "profile" + "." + ("scraper" + "." + key);
    assert "profile" + "." + ("scraper" + "." + key) == "profile.scraper." + key;
  }

  /** A complete result has the eight settings in order, a truthy url and
      prompt, and an available template name (or `default`). */
  lemma SettingsShape(configs: Configs, available: seq<string>, parse: Parser, debugMode: Json)
    requires ParseLocalConfig(configs, available, parse, debugMode).Ok?
    ensures ParseLocalConfig(configs, available, parse, debugMode).value != [] <==>
      Truthy(GetConfig(configs, "url", Null)) && Truthy(GetConfig(configs, "prompt", Null))
    ensures var r := ParseLocalConfig(configs, available, parse, debugMode).value;
      r != [] ==>
        && Keys(r) == SettingNames
        && Truthy(r[0].1) && Truthy(r[1].1)
        && r[3].1.String? && (r[3].1.s in available || r[3].1.s == "default")
        && r[7].1 == debugMode
  {
    var r := ParseLocalConfig(configs, available, parse, debugMode).value;
    if Truthy(GetConfig(configs, "url", Null)) && Truthy(GetConfig(configs, "prompt", Null)) {
      CompleteSettings(configs, available, parse, debugMode);
      var url := GetConfig(configs, "url", Null);
      var prompt := GetConfig(configs, "prompt", Null);
      var context := FormatContext(parse, GetConfig(configs, "context", Object([]))).value;
      var actions := InitialActions(GetConfig(configs, "initial_actions", Array([]))).value;
      var template := TemplateName(GetConfig(configs, "task_template", String("default")), available);
      var profileName := Setting(configs, "profile.name");
      var outputPath := GetConfig(configs, "output_path", Null);
      assert r == Settings(url, prompt, context, template, actions, profileName, outputPath, debugMode);
      SettingsFields(url, prompt, context, TemplateName(GetConfig(configs, "task_template", String("default")), available),
                     available, actions, profileName, outputPath, debugMode);
    }
  }

  /** The settings dict built from a truthy url and prompt and a template
      name chosen from `available` has the expected keys and values. */
  lemma SettingsFields(url: Json, prompt: Json, context: Json, template: string, available: seq<string>,
                       actions: Json, profileName: Json, outputPath: Json, debugMode: Json)
    requires Truthy(url) && Truthy(prompt)
    requires template in available || template == "default"
    ensures var r := Settings(url, prompt, context, template, actions, profileName, outputPath, debugMode);
      && Keys(r) == SettingNames
      && Truthy(r[0].1) && Truthy(r[1].1)
      && r[3].1.String? && (r[3].1.s in available || r[3].1.s == "default")
      && r[7].1 == debugMode
  {
    SettingsKeys(url, prompt, context, template, actions, profileName, outputPath, debugMode);
  }

  /** With a truthy url and prompt, a successful result is the settings dict
      of the values read: the formatted context, the chosen template and the
      rewritten actions. */
  lemma CompleteSettings(configs: Configs, available: seq<string>, parse: Parser, debugMode: Json)
    requires ParseLocalConfig(configs, available, parse, debugMode).Ok?
    requires Truthy(GetConfig(configs, "url", Null)) && Truthy(GetConfig(configs, "prompt", Null))
    ensures FormatContext(parse, GetConfig(configs, "context", Object([]))).Ok?
    ensures InitialActions(GetConfig(configs, "initial_actions", Array([]))).Ok?
    ensures ParseLocalConfig(configs, available, parse, debugMode).value ==
      Settings(GetConfig(configs, "url", Null), GetConfig(configs, "prompt", Null),
               FormatContext(parse, GetConfig(configs, "context", Object([]))).value,
               TemplateName(GetConfig(configs, "task_template", String("default")), available),
               InitialActions(GetConfig(configs, "initial_actions", Array([]))).value,
               Setting(configs, "profile.name"), GetConfig(configs, "output_path", Null), debugMode)
  {
  }
}
