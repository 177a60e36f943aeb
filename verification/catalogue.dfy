/** A catalogue of task templates: an ordered mapping from template name to
    its `task_format` and optional `output_format`, looked up with a fallback
    to the `default` entry. Both formats are kept as template segments; the
    format strings the source spells out are their renderings. */
module Catalogue {
  import opened Wrappers
  import opened StrFormat

  datatype Entry = Entry(taskFormat: seq<Segment>, outputFormat: Option<seq<Segment>>)

  type Catalogue = seq<(string, Entry)>

  /** `list(TASK_TEMPLATES.keys())`. */
  function Names(c: Catalogue): (ns: seq<string>)
    ensures |ns| == |c| && forall k :: 0 <= k < |c| ==> ns[k] == c[k].0
  {
    if c == [] then [] else [c[0].0] + Names(c[1..])
  }

  /** The entry bound to `name`, if any. */
  function Find(c: Catalogue, name: string): (r: Option<Entry>)
    ensures r.Some? <==> name in Names(c)
    ensures r.Some? ==> exists k :: 0 <= k < |c| && c[k] == (name, r.value)
  {
    if c == [] then None
    else if c[0].0 == name then Some(c[0].1)
    else Find(c[1..], name)
  }

  /** `TASK_TEMPLATES.get(name, TASK_TEMPLATES["default"])`: the entry for
      `name` when it is a key, else the `default` entry. */
  function Get(c: Catalogue, name: string): (e: Entry)
    requires "default" in Names(c)
    ensures name in Names(c) ==> Some(e) == Find(c, name)
    ensures name !in Names(c) ==> Some(e) == Find(c, "default")
  {
    match Find(c, name)
    case Some(e) => e
    case None => Find(c, "default").value
  }
}
