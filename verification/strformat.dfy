/** Python's `str.format` with keyword arguments, as the task templates use it.

    A format string is read left to right: `{{` and `}}` stand for single
    braces, `{name}` is replaced by the argument `name`, and any other brace
    is an error. Templates are described by their segments (literal text and
    named holes); `Render` produces the format string a template's source
    spells out, and `FormatRender` shows that formatting it fills the holes
    and nothing else. */
module StrFormat {
  import opened Wrappers
  import opened PyText

  datatype FormatError =
    | SingleClose                   // a `}` that is not part of `}}`
    | UnclosedField                 // a `{` with no `}` after it
    | UnsupportedField(field: string)  // conversion, format spec, attribute or index
    | PositionalField(field: string)   // `{}` or `{0}`: no positional arguments are passed
    | MissingKey(name: string)         // KeyError

  datatype Segment = Lit(text: string) | Hole(name: string)

  predicate Special(c: char) {
    c == '{' || c == '}' || c == '!' || c == ':' || c == '.' || c == '['
  }

  predicate AllDigits(s: string) {
    forall k :: 0 <= k < |s| ==> '0' <= s[k] <= '9'
  }

  predicate NoSpecial(s: string) {
    forall k :: 0 <= k < |s| ==> !Special(s[k])
  }

  /** A field that `str.format` looks up by keyword (names that start with a
      digit but are not all digits are keywords too; no template uses one). */
  predicate PlainName(n: string) {
    |n| > 0 && !('0' <= n[0] <= '9') && NoSpecial(n)
  }

  /** Index of the first `}` at or after `i`. */
  function CloseAt(s: string, i: nat): (r: Option<nat>)
    requires i <= |s|
    ensures r.Some? ==> i <= r.value < |s| && s[r.value] == '}'
    ensures r.Some? ==> forall k :: i <= k < r.value ==> s[k] != '}'
    ensures r.None? ==> forall k :: i <= k < |s| ==> s[k] != '}'
    decreases |s| - i
  {
    if i == |s| then None
    else if s[i] == '}' then Some(i)
    else CloseAt(s, i + 1)
  }

  /** The value of one replacement field. */
  function FieldValue(f: string, args: map<string, string>): (r: Result<string, FormatError>)
    ensures PlainName(f) ==> r == (if f in args then Ok(args[f]) else Err(MissingKey(f)))
  {
    if !NoSpecial(f) then Err(UnsupportedField(f))
    else if |f| == 0 || AllDigits(f) then Err(PositionalField(f))
    else if f in args then Ok(args[f])
    else Err(MissingKey(f))
  }

  function Prepend(p: string, r: Result<string, FormatError>): Result<string, FormatError> {
    match r
    case Ok(s) => Ok(p + s)
    case Err(e) => Err(e)
  }

  /** `fmt.format(**args)` with every argument already converted by `str()`. */
  function Format(fmt: string, args: map<string, string>): Result<string, FormatError>
    decreases |fmt|
  {
    if fmt == [] then Ok([])
    else if fmt[0] == '{' then
      if |fmt| >= 2 && fmt[1] == '{' then Prepend("{", Format(fmt[2..], args))
      else
        (match CloseAt(fmt, 1)
         case None => Err(UnclosedField)
         case Some(j) =>
           (match FieldValue(fmt[1..j], args)
            case Err(e) => Err(e)
            case Ok(v) => Prepend(v, Format(fmt[j + 1..], args))))
    else if fmt[0] == '}' then
      if |fmt| >= 2 && fmt[1] == '}' then Prepend("}", Format(fmt[2..], args))
      else Err(SingleClose)
    else Prepend([fmt[0]], Format(fmt[1..], args))
  }

  /** Doubles every brace, so that the text formats to itself. */
  function EscapeBraces(t: string): (r: string)
    ensures |r| >= |t|
  {
    if t == [] then []
    else if t[0] == '{' || t[0] == '}' then [t[0], t[0]] + EscapeBraces(t[1..])
    else [t[0]] + EscapeBraces(t[1..])
  }

  function RenderSegment(s: Segment): string {
    match s
    case Lit(t) => EscapeBraces(t)
    case Hole(n) => "{" + n + "}"
  }

  /** The format string of a template. */
  function Render(segs: seq<Segment>): string {
    if segs == [] then [] else RenderSegment(segs[0]) + Render(segs[1..])
  }

  /** The names of a template's holes. */
  function Placeholders(segs: seq<Segment>): set<string> {
    if segs == [] then {}
    else (if segs[0].Hole? then {segs[0].name} else {}) + Placeholders(segs[1..])
  }

  /** Every hole is a keyword field. */
  predicate WellFormed(segs: seq<Segment>) {
    forall n :: n in Placeholders(segs) ==> PlainName(n)
  }

  /** The reference meaning of a template: literal text as is, each hole
      replaced by its argument; the first hole without an argument is the
      error. */
  function Fill(segs: seq<Segment>, args: map<string, string>): (r: Result<string, FormatError>)
    ensures r.Ok? <==> Placeholders(segs) <= args.Keys
    ensures r.Err? ==> exists n :: n in Placeholders(segs) && n !in args && r.error == MissingKey(n)
  {
    if segs == [] then Ok([])
    else
      match segs[0]
      case Lit(t) => Prepend(t, Fill(segs[1..], args))
      case Hole(n) => if n in args then Prepend(args[n], Fill(segs[1..], args)) else Err(MissingKey(n))
  }

  lemma {:induction false} FormatEscaped(t: string, rest: string, args: map<string, string>)
    ensures Format(EscapeBraces(t) + rest, args) == Prepend(t, Format(rest, args))
    decreases |t|
  {
    if t != [] {
      FormatEscaped(t[1..], rest, args);
      assert t == [t[0]] + t[1..];
      FormatEscapedStep(t[0], t[1..], rest, args);
    } else {
      assert EscapeBraces(t) + rest == rest;
      PrependPrepend([], [], Format(rest, args));
    }
  }

  /** One character more of escaped text formats to one character more. */
  lemma FormatEscapedStep(c: char, t: string, rest: string, args: map<string, string>)
    requires Format(EscapeBraces(t) + rest, args) == Prepend(t, Format(rest, args))
    ensures Format(EscapeBraces([c] + t) + rest, args) == Prepend([c] + t, Format(rest, args))
  {
    var et := EscapeBraces(t);
    var e := et + rest;
    assert ([c] + t)[0] == c && ([c] + t)[1..] == t;
    if c == '{' || c == '}' {
      assert EscapeBraces([c] + t) == [c, c] + et;
      assert [c, c] + et + rest == [c, c] + e;
      FormatDoubled(c, e, args);
    } else {
      assert EscapeBraces([c] + t) == [c] + et;
      assert [c] + et + rest == [c] + e;
      FormatPlain(c, e, args);
    }
    PrependPrepend([c], t, Format(rest, args));
  }

  lemma FormatDoubled(c: char, e: string, args: map<string, string>)
    requires c == '{' || c == '}'
    ensures Format([c, c] + e, args) == Prepend([c], Format(e, args))
  {
    assert ([c, c] + e)[2..] == e;
  }

  lemma FormatPlain(c: char, e: string, args: map<string, string>)
    requires c != '{' && c != '}'
    ensures Format([c] + e, args) == Prepend([c], Format(e, args))
  {
    assert ([c] + e)[1..] == e;
  }

  lemma PrependPrepend(a: string, b: string, r: Result<string, FormatError>)
    ensures Prepend(a, Prepend(b, r)) == Prepend(a + b, r)
    ensures a == [] ==> Prepend(a, r) == r
  {
    if r.Ok? {
      assert a + (b + r.value) == (a + b) + r.value;
      if a == [] { assert a + r.value == r.value; }
    }
  }

  lemma {:induction false} FormatHole(n: string, rest: string, args: map<string, string>)
    requires PlainName(n)
    ensures Format("{" + n + "}" + rest, args) ==
      (if n in args then Prepend(args[n], Format(rest, args)) else Err(MissingKey(n)))
  {
    var s := "{" + n + "}" + rest;
    assert s[0] == '{' && s[1] == n[0];
    assert forall k :: 1 <= k < |n| + 1 ==> s[k] == n[k - 1];
    assert s[|n| + 1] == '}';
    assert CloseAt(s, 1) == Some(|n| + 1) by {
      CloseAtFinds(s, 1, |n| + 1);
    }
    assert s[1..|n| + 1] == n;
    assert s[|n| + 2..] == rest;
  }

  lemma {:induction false} CloseAtFinds(s: string, i: nat, j: nat)
    requires i <= j < |s| && s[j] == '}' && forall k :: i <= k < j ==> s[k] != '}'
    ensures CloseAt(s, i) == Some(j)
    decreases j - i
  {
    if i < j {
      CloseAtFinds(s, i + 1, j);
    }
  }

  /** Formatting a rendered template is filling it: literal text (braces
      included) comes through unchanged and every hole takes its argument. */
  lemma {:induction false} FormatRender(segs: seq<Segment>, args: map<string, string>)
    requires WellFormed(segs)
    ensures Format(Render(segs), args) == Fill(segs, args)
    decreases |segs|
  {
    if segs != [] {
      FormatRender(segs[1..], args);
      var rest := Render(segs[1..]);
      match segs[0]
      case Lit(t) =>
        FormatEscaped(t, rest, args);
      case Hole(n) =>
        FormatHole(n, rest, args);
    }
  }

  /** A well-formed template formats without error exactly when every
      placeholder has an argument. */
  lemma FormatSucceeds(segs: seq<Segment>, args: map<string, string>)
    requires WellFormed(segs)
    ensures Format(Render(segs), args).Ok? <==> Placeholders(segs) <= args.Keys
  {
    FormatRender(segs, args);
  }

  /** Text with no hole, such as an escaped JSON example, formats to itself
      whatever the arguments. */
  lemma LiteralFormatsToItself(t: string, args: map<string, string>)
    ensures Format(Render([Lit(t)]), args) == Ok(t)
  {
    FormatRender([Lit(t)], args);
    assert [Lit(t)][1..] == [];
    assert Fill([Lit(t)], args) == Prepend(t, Ok([]));
    assert t + [] == t;
  }

  /** Filling a concatenation of templates concatenates the fills. */
  lemma {:induction false} FillAppend(a: seq<Segment>, b: seq<Segment>, args: map<string, string>)
    requires Placeholders(a) <= args.Keys && Placeholders(b) <= args.Keys
    ensures Placeholders(a + b) <= args.Keys
    ensures Fill(a + b, args) == Ok(Fill(a, args).value + Fill(b, args).value)
    decreases |a|
  {
    if a == [] {
      assert a + b == b;
      assert [] + Fill(b, args).value == Fill(b, args).value;
    } else {
      assert (a + b)[0] == a[0];
      assert (a + b)[1..] == a[1..] + b;
      FillAppend(a[1..], b, args);
      var p := if a[0].Lit? then a[0].text else args[a[0].name];
      assert p + (Fill(a[1..], args).value + Fill(b, args).value)
        == (p + Fill(a[1..], args).value) + Fill(b, args).value;
    }
  }

  /** A filled template is the fill of its first `i` segments followed by
      the fill of the rest. */
  lemma FillSplit(segs: seq<Segment>, args: map<string, string>, i: nat)
    requires i <= |segs| && Placeholders(segs) <= args.Keys
    ensures Placeholders(segs[..i]) <= args.Keys && Placeholders(segs[i..]) <= args.Keys
    ensures Fill(segs, args).value == Fill(segs[..i], args).value + Fill(segs[i..], args).value
  {
    PlaceholdersAppend(segs[..i], segs[i..]);
    assert segs[..i] + segs[i..] == segs;
    FillAppend(segs[..i], segs[i..], args);
  }

  /** The fill of the segments from `i` on starts with segment `i`'s text. */
  lemma FillHead(segs: seq<Segment>, args: map<string, string>, i: nat)
    requires i < |segs| && Placeholders(segs[i..]) <= args.Keys
    ensures segs[i].Hole? ==> segs[i].name in args
    ensures Fill(segs[i..], args).value ==
      (if segs[i].Lit? then segs[i].text else args[segs[i].name]) + Fill(segs[i + 1..], args).value
  {
    assert segs[i..][0] == segs[i] && segs[i..][1..] == segs[i + 1..];
  }

  /** In a filled template, each hole's argument stands between the filled
      text before it and the filled text after it. */
  lemma FillAt(segs: seq<Segment>, args: map<string, string>, i: nat)
    requires i < |segs| && segs[i].Hole? && Placeholders(segs) <= args.Keys
    ensures Placeholders(segs[..i]) <= args.Keys && Placeholders(segs[i + 1..]) <= args.Keys
    ensures segs[i].name in args
    ensures Fill(segs, args).value ==
      Fill(segs[..i], args).value + args[segs[i].name] + Fill(segs[i + 1..], args).value
  {
    FillSplit(segs, args, i);
    FillSplit(segs, args, i + 1);
    FillHead(segs, args, i);
  }

  lemma {:induction false} PlaceholdersAppend(a: seq<Segment>, b: seq<Segment>)
    ensures Placeholders(a + b) == Placeholders(a) + Placeholders(b)
    decreases |a|
  {
    if a == [] {
      assert a + b == b;
    } else {
      assert (a + b)[0] == a[0];
      assert (a + b)[1..] == a[1..] + b;
      PlaceholdersAppend(a[1..], b);
    }
  }

  /** A hole's argument is filled in with the literal text on either side of
      it left as it is. */
  lemma FillAround(segs: seq<Segment>, args: map<string, string>, i: nat)
    requires 0 < i < |segs| - 1 && segs[i - 1].Lit? && segs[i].Hole? && segs[i + 1].Lit?
    requires Placeholders(segs) <= args.Keys
    ensures segs[i].name in args
    ensures Occurs(segs[i - 1].text + args[segs[i].name] + segs[i + 1].text, Fill(segs, args).value)
  {
    FillSplit(segs, args, i - 1);
    FillHead(segs, args, i - 1);
    FillHead(segs, args, i);
    FillHead(segs, args, i + 1);
    OccursNested(Fill(segs[..i - 1], args).value, segs[i - 1].text, args[segs[i].name], segs[i + 1].text,
                 Fill(segs[i + 2..], args).value);
  }

  /** Two templates with holes of the same names at the same places have
      the same placeholders, whatever their literal texts. */
  lemma {:induction false} SameHoles(s: seq<Segment>, t: seq<Segment>)
    requires |s| == |t|
    requires forall k :: 0 <= k < |s| ==> (s[k].Hole? <==> t[k].Hole?) && (s[k].Hole? ==> s[k].name == t[k].name)
    ensures Placeholders(s) == Placeholders(t)
    decreases |s|
  {
    if s != [] {
      SameHoles(s[1..], t[1..]);
    }
  }

  /** A name is a placeholder exactly when some segment is a hole of that
      name. */
  lemma {:induction false} PlaceholdersSpec(segs: seq<Segment>, n: string)
    ensures n in Placeholders(segs) <==> exists k :: 0 <= k < |segs| && segs[k] == Hole(n)
    decreases |segs|
  {
    if segs != [] {
      PlaceholdersSpec(segs[1..], n);
      if n in Placeholders(segs[1..]) {
        var k :| 0 <= k < |segs[1..]| && segs[1..][k] == Hole(n);
        assert segs[k + 1] == Hole(n);
      }
      if exists k :: 0 <= k < |segs| && segs[k] == Hole(n) {
        var k :| 0 <= k < |segs| && segs[k] == Hole(n);
        if k > 0 {
          assert segs[1..][k - 1] == Hole(n);
        }
      }
    }
  }
}
