/** `ConfigManager`'s read side: dot-path lookup into the loaded
    configurations (one per YAML file, named after the file), whole-config
    access, and secrets that an environment variable may override.

    Loading the files is not modelled: the loaded map is an input. */
module ConfigManager {
  import opened Wrappers
  import opened Json
  import opened PyText

  /** `self.configs`: config name to its loaded value. */
  type Configs = Members

  /** The value reached from `v` by following `keys`, each of which must be
      a key of a dict at that point. */
  function Resolve(v: Json, keys: seq<string>): (r: Option<Json>)
    ensures keys == [] ==> r == Some(v)
    decreases |keys|
  {
    if keys == [] then Some(v)
    else if v.Object? && HasKey(v.members, keys[0]) then Resolve(Lookup(v.members, keys[0]).value, keys[1..])
    else None
  }

  /** The value at a dot path: the first part names a config, the rest are
      keys; `None` when any step is missing. */
  function ResolvePath(configs: Configs, path: string): Option<Json> {
    var parts := Split(path, '.');
    match Lookup(configs, parts[0])
    case None => None
    case Some(c) => Resolve(c, parts[1..])
  }

  /** `get(path, default)`. */
  method Get(configs: Configs, path: string, default: Json) returns (r: Json)
    ensures ResolvePath(configs, path).Some? ==> r == ResolvePath(configs, path).value
    ensures ResolvePath(configs, path).None? ==> r == default
  {
    var parts := Split(path, '.');
    if !HasKey(configs, parts[0]) {
      return default;
    }
    r := Walk(Lookup(configs, parts[0]).value, parts[1..], default);
  }

  /** The loop of `get`: follows the keys one dict at a time and gives the
      default at the first step that is not a dict or lacks the key. */
  method Walk(v: Json, keys: seq<string>, default: Json) returns (r: Json)
    ensures Resolve(v, keys).Some? ==> r == Resolve(v, keys).value
    ensures Resolve(v, keys).None? ==> r == default
  {
    var current := v;
    var i := 0;
    while i < |keys|
      invariant 0 <= i <= |keys|
      invariant Resolve(v, keys) == Resolve(current, keys[i..])
    {
      var key := keys[i];
      ghost var rest := keys[i..];
      assert rest[0] == key && rest[1..] == keys[i + 1..];
      if current.Object? && HasKey(current.members, key) {
        current := Lookup(current.members, key).value;
      } else {
        return default;
      }
      i := i + 1;
    }
    assert keys[i..] == [];
    return current;
  }

  /** `get_all(name)`: the named config, or an empty dict. */
  function GetAll(configs: Configs, name: string): (r: Json)
    ensures HasKey(configs, name) ==> Some(r) == Lookup(configs, name)
    ensures !HasKey(configs, name) ==> r == Object([])
  {
    match Lookup(configs, name)
    case Some(c) => c
    case None => Object([])
  }

  /** `get_secret(path, env_var)`: a set environment variable named by a
      non-empty `env_var` wins; otherwise the value at `path`, or `None`. */
  method GetSecret(configs: Configs, path: string, envVar: Option<string>, env: map<string, string>)
    returns (r: Json)
    ensures envVar.Some? && envVar.value != "" && envVar.value in env ==> r == String(env[envVar.value])
    ensures !(envVar.Some? && envVar.value != "" && envVar.value in env) ==>
      r == (if ResolvePath(configs, path).Some? then ResolvePath(configs, path).value else Null)
  {
    if envVar.Some? && envVar.value != "" && envVar.value in env {
      return String(env[envVar.value]);
    }
    r := Get(configs, path, Null);
  }

  /** A path naming an unloaded config gives the default. */
  lemma UnknownConfig(configs: Configs, path: string)
    requires !HasKey(configs, Split(path, '.')[0])
    ensures ResolvePath(configs, path).None?
  {
  }

  /** A path of one part (no dot) gives the whole config. */
  lemma WholeConfig(configs: Configs, name: string)
    requires '.' !in name && HasKey(configs, name)
    ensures ResolvePath(configs, name) == Lookup(configs, name)
  {
    SplitWithoutSeparator(name, '.');
  }

  /** The path `name.k1.k2...` built from dot-free parts reaches exactly the
      value that following `k1, k2, ...` from config `name` reaches; a
      present value is returned as it is, even when it is falsy. */
  lemma NestedPath(configs: Configs, name: string, keys: seq<string>)
    requires '.' !in name && forall i :: 0 <= i < |keys| ==> '.' !in keys[i]
    ensures ResolvePath(configs, Join([name] + keys, ".")) ==
      (if HasKey(configs, name) then Resolve(Lookup(configs, name).value, keys) else None)
  {
    var parts := [name] + keys;
    assert forall i :: 0 <= i < |parts| ==> '.' !in parts[i] by {
      forall i | 0 <= i < |parts| ensures '.' !in parts[i] {
        if i > 0 { assert parts[i] == keys[i - 1]; }
      }
    }
    SplitJoin(parts, '.');
    assert parts[1..] == keys;
  }

  /** A step that is not a key of a dict ends the walk, whatever follows. */
  lemma {:induction false} MissingStep(v: Json, keys: seq<string>, i: nat)
    requires i < |keys|
    requires Resolve(v, keys[..i]).Some?
    requires var w := Resolve(v, keys[..i]).value; !(w.Object? && HasKey(w.members, keys[i]))
    ensures Resolve(v, keys).None?
    decreases i
  {
    if i > 0 {
      assert keys[..i][1..] == keys[1..][..i - 1];
      MissingStep(Lookup(v.members, keys[0]).value, keys[1..], i - 1);
    }
  }
}
