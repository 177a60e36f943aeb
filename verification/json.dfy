/** JSON / YAML values as the Python code sees them after `json.loads` or
    `yaml.safe_load`, and the dictionary operations the code performs on them. */
module Json {
  import opened Wrappers

  /** A Python value built from JSON. Objects keep their members in insertion
      order, as Python dicts do. A float is kept as its Python `repr` text:
      the model does no arithmetic on floats. */
  datatype Json =
    | Null
    | Bool(b: bool)
    | Int(i: int)
    | Float(repr: string)
    | String(s: string)
    | Array(items: seq<Json>)
    | Object(members: seq<(string, Json)>)

  type Members = seq<(string, Json)>

  /** `json.loads`: the decoded value, or the decoder's error message. */
  type Parser = string -> Result<Json, string>

  function Keys(ms: Members): (ks: seq<string>)
    ensures |ks| == |ms|
    ensures forall i :: 0 <= i < |ms| ==> ks[i] == ms[i].0
  {
    if ms == [] then [] else [ms[0].0] + Keys(ms[1..])
  }

  predicate HasKey(ms: Members, k: string) {
    k in Keys(ms)
  }

  /** No key occurs twice: true of every dict the source builds. */
  predicate UniqueKeys(ms: Members) {
    forall i, j :: 0 <= i < j < |ms| ==> ms[i].0 != ms[j].0
  }

  /** `d.get(k)`: the value bound to `k`, looking at the first binding. */
  function Lookup(ms: Members, k: string): (r: Option<Json>)
    ensures r.Some? <==> HasKey(ms, k)
  {
    if ms == [] then None
    else if ms[0].0 == k then Some(ms[0].1)
    else Lookup(ms[1..], k)
  }

  /** With unique keys, the binding at position `i` is the one found. */
  lemma {:induction false} LookupAt(ms: Members, i: nat)
    requires UniqueKeys(ms)
    requires i < |ms|
    ensures Lookup(ms, ms[i].0) == Some(ms[i].1)
  {
    if i > 0 {
      assert ms[0].0 != ms[i].0;
      assert ms[1..][i - 1] == ms[i];
      LookupAt(ms[1..], i - 1);
    }
  }

  /** `d[k] = v`: an existing key keeps its position and takes the new value;
      a new key is appended at the end. */
  function Put(ms: Members, k: string, v: Json): (r: Members)
    ensures HasKey(ms, k) ==> Keys(r) == Keys(ms)
    ensures !HasKey(ms, k) ==> Keys(r) == Keys(ms) + [k]
    ensures Lookup(r, k) == Some(v)
    ensures forall k' :: k' != k ==> Lookup(r, k') == Lookup(ms, k')
  {
    if ms == [] then [(k, v)]
    else if ms[0].0 == k then
      PutFirst(ms, k, v);
      [(k, v)] + ms[1..]
    else
      var rest := Put(ms[1..], k, v);
      PutLater(ms, k, v, rest);
      [ms[0]] + rest
  }

  /** Overwriting the first key keeps the key order. */
  lemma PutFirst(ms: Members, k: string, v: Json)
    requires ms != [] && ms[0].0 == k
    ensures var r := [(k, v)] + ms[1..];
      && HasKey(ms, k) && Keys(r) == Keys(ms)
      && Lookup(r, k) == Some(v)
      && forall k' :: k' != k ==> Lookup(r, k') == Lookup(ms, k')
  {
    var r := [(k, v)] + ms[1..];
    assert r[0] == (k, v) && r[1..] == ms[1..];
    assert Keys(ms) == [k] + Keys(ms[1..]) && Keys(r) == [k] + Keys(ms[1..]);
    assert forall k' :: k' != k ==> Lookup(r, k') == Lookup(ms[1..], k');
  }

  /** Putting past a different first key keeps that binding in front. */
  lemma PutLater(ms: Members, k: string, v: Json, rest: Members)
    requires ms != [] && ms[0].0 != k
    requires HasKey(ms[1..], k) ==> Keys(rest) == Keys(ms[1..])
    requires !HasKey(ms[1..], k) ==> Keys(rest) == Keys(ms[1..]) + [k]
    requires Lookup(rest, k) == Some(v)
    requires forall k' :: k' != k ==> Lookup(rest, k') == Lookup(ms[1..], k')
    ensures var r := [ms[0]] + rest;
      && (HasKey(ms, k) ==> Keys(r) == Keys(ms))
      && (!HasKey(ms, k) ==> Keys(r) == Keys(ms) + [k])
      && Lookup(r, k) == Some(v)
      && forall k' :: k' != k ==> Lookup(r, k') == Lookup(ms, k')
  {
    var r := [ms[0]] + rest;
    assert r[0] == ms[0] && r[1..] == rest;
    assert Keys(ms) == [ms[0].0] + Keys(ms[1..]);
    assert Keys(r) == [ms[0].0] + Keys(rest);
    assert HasKey(ms, k) == HasKey(ms[1..], k);
    assert Lookup(r, k) == Lookup(rest, k);
    assert forall k' :: k' != ms[0].0 ==> Lookup(r, k') == Lookup(rest, k');
  }

  /** Assigning a new key appends it. */
  lemma {:induction false} AppendNew(m: Members, k: string, v: Json)
    requires !HasKey(m, k)
    ensures Put(m, k, v) == m + [(k, v)]
    decreases |m|
  {
    if m != [] {
      assert Keys(m) == [m[0].0] + Keys(m[1..]);
      assert m[0].0 != k;
      AppendNew(m[1..], k, v);
      assert Put(m, k, v) == [m[0]] + Put(m[1..], k, v);
      assert [m[0]] + (m[1..] + [(k, v)]) == m + [(k, v)];
    }
  }

  /** The first binding of a key is the one found, whatever follows. */
  lemma {:induction false} LookupFirst(ms: Members, i: nat)
    requires i < |ms|
    requires forall j :: 0 <= j < i ==> ms[j].0 != ms[i].0
    ensures Lookup(ms, ms[i].0) == Some(ms[i].1)
  {
    if i > 0 {
      assert ms[1..][i - 1] == ms[i];
      LookupFirst(ms[1..], i - 1);
    }
  }

  /** Looking a key up in two dicts' members laid end to end: the first
      dict's binding wins. */
  lemma {:induction false} LookupAppend(a: Members, b: Members, k: string)
    ensures Lookup(a + b, k) == if HasKey(a, k) then Lookup(a, k) else Lookup(b, k)
    decreases |a|
  {
    if a != [] {
      assert (a + b)[1..] == a[1..] + b;
      assert Keys(a) == [a[0].0] + Keys(a[1..]);
      LookupAppend(a[1..], b, k);
    } else {
      assert a + b == b;
    }
  }

  /** Appending a new key keeps the keys unique. */
  lemma AppendUnique(ms: Members, k: string, v: Json)
    requires UniqueKeys(ms) && !HasKey(ms, k)
    ensures UniqueKeys(ms + [(k, v)])
  {
    var r := ms + [(k, v)];
    forall i, j | 0 <= i < j < |r| ensures r[i].0 != r[j].0 {
      assert r[i] == ms[i] && Keys(ms)[i] == ms[i].0;
      if j < |ms| {
        assert r[j] == ms[j];
      }
    }
  }

  /** Assigning into a dict never creates a duplicate key. */
  lemma PutKeepsKeysUnique(ms: Members, k: string, v: Json)
    requires UniqueKeys(ms)
    ensures UniqueKeys(Put(ms, k, v))
  {
    var r := Put(ms, k, v);
    var ks := Keys(r);
    forall i, j | 0 <= i < j < |r| ensures r[i].0 != r[j].0 {
      assert ks[i] == r[i].0 && ks[j] == r[j].0;
      if HasKey(ms, k) {
        assert Keys(ms)[i] == ms[i].0 && Keys(ms)[j] == ms[j].0;
      } else if j < |ms| {
        assert Keys(ms)[i] == ms[i].0 && Keys(ms)[j] == ms[j].0;
      } else {
        assert ks[j] == k;
        assert Keys(ms)[i] == ms[i].0;
      }
    }
  }

  /** Assignment keeps every existing key in its place and adds at most one
      key after them. */
  lemma PutKeysPrefix(ms: Members, k: string, v: Json)
    ensures |ms| <= |Put(ms, k, v)| <= |ms| + 1
    ensures Keys(Put(ms, k, v))[..|ms|] == Keys(ms)
  {
    if !HasKey(ms, k) {
      assert (Keys(ms) + [k])[..|ms|] == Keys(ms);
    }
  }

  /** `key` is bound to a string. */
  predicate StrAt(ms: Members, key: string) {
    Lookup(ms, key).Some? && Lookup(ms, key).value.String?
  }

  /** Python truthiness: `None`, `False`, zero, and empty strings, lists and
      dicts are falsy. */
  predicate Truthy(j: Json) {
    match j
    case Null => false
    case Bool(b) => b
    case Int(i) => i != 0
    case Float(r) => r != "0.0" && r != "-0.0"
    case String(s) => s != ""
    case Array(xs) => xs != []
    case Object(ms) => ms != []
  }
}
