/** The Python string built-ins the source relies on: `str()` and `repr()` of
    JSON values, `strip`, `replace(pat, "")`, `split`, `join` and `int()`. */
module PyText {
  import opened Wrappers
  import opened Json

  // ---------------------------------------------------------------------------
  // Substrings

  /** `pat` starts at position `i` of `s`. */
  predicate OccursAt(pat: string, s: string, i: int) {
    0 <= i && i + |pat| <= |s| && s[i..i + |pat|] == pat
  }

  /** `pat in s` for strings. */
  predicate Occurs(pat: string, s: string) {
    exists i | 0 <= i <= |s| - |pat| :: OccursAt(pat, s, i)
  }

  /** Text placed between two others occurs in the result. */
  lemma OccursBetween(pre: string, pat: string, post: string)
    ensures OccursAt(pat, pre + pat + post, |pre|)
    ensures Occurs(pat, pre + pat + post)
  {
    var s := pre + pat + post;
    assert s[|pre|..|pre| + |pat|] == pat;
    assert OccursAt(pat, s, |pre|);
  }

  /** Three pieces laid end to end inside a text occur there together. */
  lemma OccursNested(pre: string, l: string, m: string, r: string, post: string)
    ensures Occurs(l + m + r, pre + (l + (m + (r + post))))
  {
    assert pre + (l + (m + (r + post))) == pre + (l + m + r) + post;
    OccursBetween(pre, l + m + r, post);
  }

  /** A part of text that occurs in a string occurs there too. */
  lemma OccursInside(pre: string, pat: string, post: string, s: string)
    requires Occurs(pre + pat + post, s)
    ensures Occurs(pat, s)
  {
    var w := pre + pat + post;
    var i :| 0 <= i <= |s| - |w| && OccursAt(w, s, i);
    assert s[i..i + |w|] == w;
    forall k | 0 <= k < |pat| ensures s[i + |pre| + k] == pat[k] {
      assert s[i + |pre| + k] == s[i..i + |w|][|pre| + k] == w[|pre| + k];
    }
    assert s[i + |pre|..i + |pre| + |pat|] == pat;
    assert OccursAt(pat, s, i + |pre|);
  }

  /** Where two pieces meet inside a text that occurs in a string, the
      end of the one and the start of the other occur there together. */
  lemma OccursAcross(pre: string, a: string, b: string, rest: string, post: string, s: string)
    requires Occurs((pre + a) + (b + rest) + post, s)
    ensures Occurs(a + b, s)
  {
    assert (pre + a) + (b + rest) + post == pre + (a + b) + (rest + post);
    OccursInside(pre, a + b, rest + post, s);
  }

  /** A text with its neighbours `l` and `r`, inside a larger text that
      occurs in a string, occurs there too. */
  lemma OccursWithin(pre: string, l: string, x: string, r: string, post: string, s: string)
    requires Occurs((pre + l) + x + (r + post), s)
    ensures Occurs(l + x + r, s)
  {
    assert (pre + l) + x + (r + post) == pre + (l + x + r) + post;
    OccursInside(pre, l + x + r, post, s);
  }

  /** Three pieces at the end of a text occur there together. */
  lemma OccursAfter(a: string, b: string, c: string, d: string)
    ensures Occurs(b + c + d, a + b + c + d)
  {
    assert a + b + c + d == a + (b + c + d) + "";
    OccursBetween(a, b + c + d, "");
  }

  /** A pattern found in a prefix is found in the whole. */
  lemma OccursPrefix(pat: string, s: string, t: string)
    requires Occurs(pat, s)
    ensures Occurs(pat, s + t)
  {
    var i :| 0 <= i <= |s| - |pat| && OccursAt(pat, s, i);
    assert (s + t)[i..i + |pat|] == s[i..i + |pat|];
    assert OccursAt(pat, s + t, i);
  }

  // ---------------------------------------------------------------------------
  // strip

  /** `str.isspace()` for a single character (Unicode whitespace as Python
      defines it: bidirectional classes WS, B, S and category Zs). */
  predicate IsSpace(c: char) {
    c == ' ' || ('\t' <= c <= '\r') || ('\U{1c}' <= c <= '\U{1f}')
    || c == '\U{85}' || c == '\U{a0}' || c == '\U{1680}'
    || ('\U{2000}' <= c <= '\U{200a}') || c == '\U{2028}' || c == '\U{2029}'
    || c == '\U{202f}' || c == '\U{205f}' || c == '\U{3000}'
  }

  predicate AllChars(s: string, p: char -> bool) {
    forall i :: 0 <= i < |s| ==> p(s[i])
  }

  function StripLeft(s: string, drop: char -> bool): (r: string)
    ensures |r| <= |s| && r == s[|s| - |r|..]
    ensures AllChars(s[..|s| - |r|], drop)
    ensures r != [] ==> !drop(r[0])
    decreases |s|
  {
    if s != [] && drop(s[0]) then StripLeft(s[1..], drop) else s
  }

  function StripRight(s: string, drop: char -> bool): (r: string)
    ensures |r| <= |s| && r == s[..|r|]
    ensures AllChars(s[|r|..], drop)
    ensures r != [] ==> !drop(r[|r| - 1])
    decreases |s|
  {
    if s != [] && drop(s[|s| - 1]) then StripRight(s[..|s| - 1], drop) else s
  }

  /** `s.strip(chars)`: drops every leading and trailing character in the set;
      what is left is a slice `s[i..i + |r|]` with only dropped characters
      around it. */
  function StripBy(s: string, drop: char -> bool): (r: string)
    ensures StrippedAt(s, r, StripStart(s, drop), drop)
    ensures r != [] ==> !drop(r[0]) && !drop(r[|r| - 1])
  {
    var l := StripLeft(s, drop);
    var r := StripRight(l, drop);
    StrippedParts(s, l, r, drop);
    r
  }

  /** A suffix with only dropped characters before it, cut to a prefix with
      only dropped characters after it, is a stripped slice. */
  lemma StrippedParts(s: string, l: string, r: string, drop: char -> bool)
    requires |l| <= |s| && l == s[|s| - |l|..] && AllChars(s[..|s| - |l|], drop)
    requires |r| <= |l| && r == l[..|r|] && AllChars(l[|r|..], drop)
    ensures StrippedAt(s, r, |s| - |l|, drop)
  {
    var i := |s| - |l|;
    assert s[i..i + |r|] == l[..|r|];
    assert s[i + |r|..] == l[|r|..];
  }

  /** Where the text `s.strip(chars)` keeps begins. */
  function StripStart(s: string, drop: char -> bool): (i: nat)
    ensures i <= |s|
  {
    |s| - |StripLeft(s, drop)|
  }

  predicate StrippedAt(s: string, r: string, i: int, drop: char -> bool) {
    0 <= i && i + |r| <= |s| && s[i..i + |r|] == r
    && AllChars(s[..i], drop) && AllChars(s[i + |r|..], drop)
  }

  /** A text is its part before a slice, the slice and its part after. */
  lemma SliceAround(s: string, i: int, j: int)
    requires 0 <= i <= j <= |s|
    ensures s == s[..i] + s[i..j] + s[j..]
  {
  }

  /** `s.strip()`. */
  function Strip(s: string): string {
    StripBy(s, IsSpace)
  }

  /** Stripping a string that has nothing to strip at either end returns it. */
  lemma StripUnchanged(s: string, drop: char -> bool)
    requires s != [] ==> !drop(s[0]) && !drop(s[|s| - 1])
    ensures StripBy(s, drop) == s
  {
    assert StripLeft(s, drop) == s;
    assert StripRight(s, drop) == s;
  }

  // ---------------------------------------------------------------------------
  // replace(pat, "")

  /** `s.replace(pat, "")`: scans left to right and deletes non-overlapping
      occurrences of `pat`. */
  function RemoveAll(s: string, pat: string): string
    requires pat != []
    decreases |s|
  {
    if |s| < |pat| then s
    else if s[..|pat|] == pat then RemoveAll(s[|pat|..], pat)
    else [s[0]] + RemoveAll(s[1..], pat)
  }

  /** Deleting a pattern that does not occur leaves the string as it was. */
  lemma {:induction false} RemoveAllAbsent(s: string, pat: string)
    requires pat != []
    requires !Occurs(pat, s)
    ensures RemoveAll(s, pat) == s
    decreases |s|
  {
    if |s| >= |pat| {
      assert !OccursAt(pat, s, 0);
      assert s[0..|pat|] == s[..|pat|];
      forall i | OccursAt(pat, s[1..], i) ensures false {
        assert s[1..][i..i + |pat|] == s[i + 1..i + 1 + |pat|];
        assert OccursAt(pat, s, i + 1);
      }
      RemoveAllAbsent(s[1..], pat);
      assert s == [s[0]] + s[1..];
    }
  }

  /** A leading occurrence is deleted and the scan goes on after it. */
  lemma RemoveAllPrefix(pat: string, t: string)
    requires pat != []
    ensures RemoveAll(pat + t, pat) == RemoveAll(t, pat)
  {
    assert (pat + t)[..|pat|] == pat && (pat + t)[|pat|..] == t;
  }

  /** Text free of the pattern's first character passes through untouched. */
  lemma {:induction false} RemoveAllBefore(a: string, t: string, pat: string)
    requires pat != [] && pat[0] !in a
    ensures RemoveAll(a + t, pat) == a + RemoveAll(t, pat)
    decreases |a|
  {
    if a == [] {
      assert a + t == t;
    } else {
      var s := a + t;
      assert s[0] == a[0] && s[1..] == a[1..] + t;
      RemoveAllBefore(a[1..], t, pat);
      if |s| < |pat| {
        assert RemoveAll(t, pat) == t;
      } else {
        assert s[..|pat|][0] == a[0];
        assert [a[0]] + (a[1..] + RemoveAll(t, pat)) == a + RemoveAll(t, pat);
      }
    }
  }

  // ---------------------------------------------------------------------------
  // split / join

  /** `sep.join(parts)`. */
  function Join(parts: seq<string>, sep: string): string {
    if parts == [] then ""
    else if |parts| == 1 then parts[0]
    else parts[0] + sep + Join(parts[1..], sep)
  }

  /** `s.split(sep)` for a one-character separator. */
  function Split(s: string, sep: char): (parts: seq<string>)
    ensures |parts| >= 1
    ensures forall i :: 0 <= i < |parts| ==> sep !in parts[i]
    ensures Join(parts, [sep]) == s
  {
    if s == [] then [""]
    else
      var rest := Split(s[1..], sep);
      if s[0] == sep then
        assert ([""] + rest)[1..] == rest;
        [""] + rest
      else
        var parts := [[s[0]] + rest[0]] + rest[1..];
        assert parts[1..] == rest[1..];
        parts
  }

  lemma {:induction false} SplitWithoutSeparator(p: string, sep: char)
    requires sep !in p
    ensures Split(p, sep) == [p]
  {
    if p != [] {
      SplitWithoutSeparator(p[1..], sep);
      assert [p[0]] + p[1..] == p;
    }
  }

  lemma {:induction false} SplitAfterPart(p: string, sep: char, rest: string)
    requires sep !in p
    ensures Split(p + [sep] + rest, sep) == [p] + Split(rest, sep)
  {
    if p == [] {
      assert p + [sep] + rest == [sep] + rest;
      assert ([sep] + rest)[1..] == rest;
    } else {
      var s := p + [sep] + rest;
      assert s[1..] == p[1..] + [sep] + rest;
      SplitAfterPart(p[1..], sep, rest);
      assert [p[0]] + p[1..] == p;
    }
  }

  /** Splitting a joined list of separator-free parts gives the parts back. */
  lemma {:induction false} SplitJoin(parts: seq<string>, sep: char)
    requires |parts| >= 1
    requires forall i :: 0 <= i < |parts| ==> sep !in parts[i]
    ensures Split(Join(parts, [sep]), sep) == parts
  {
    if |parts| == 1 {
      SplitWithoutSeparator(parts[0], sep);
    } else {
      SplitJoin(parts[1..], sep);
      SplitAfterPart(parts[0], sep, Join(parts[1..], [sep]));
      assert [parts[0]] + parts[1..] == parts;
    }
  }

  // ---------------------------------------------------------------------------
  // Integers

  function DigitChar(d: nat): char
    requires d < 10
  {
    "0123456789"[d]
  }

  predicate IsDigit(c: char) {
    '0' <= c <= '9'
  }

  function DigitValue(c: char): nat
    requires IsDigit(c)
  {
    (c as int - '0' as int) as nat
  }

  /** Decimal digits of a natural number, most significant first. */
  function NatToString(n: nat): (s: string)
    ensures s != [] && AllChars(s, IsDigit)
    decreases n
  {
    if n < 10 then [DigitChar(n)] else NatToString(n / 10) + [DigitChar(n % 10)]
  }

  /** `str(i)` for an int. */
  function IntToString(i: int): (s: string)
    ensures s != [] && IsDigit(s[|s| - 1])
    ensures s[0] == '-' || IsDigit(s[0])
  {
    if i < 0 then "-" + NatToString(-i) else NatToString(i)
  }

  function ParseDigits(s: string): nat
    requires s != [] && AllChars(s, IsDigit)
    decreases |s|
  {
    if |s| == 1 then DigitValue(s[0])
    else ParseDigits(s[..|s| - 1]) * 10 + DigitValue(s[|s| - 1])
  }

  lemma {:induction false} ParseDigitsOfNat(n: nat)
    ensures ParseDigits(NatToString(n)) == n
    decreases n
  {
    if n >= 10 {
      var s := NatToString(n);
      assert s[..|s| - 1] == NatToString(n / 10);
      ParseDigitsOfNat(n / 10);
    }
  }

  /** `int(s)` for a string: surrounding whitespace, an optional sign and
      decimal digits; anything else is a `ValueError` (`None`). */
  function ParseInt(s: string): Option<int> {
    ParseSigned(Strip(s))
  }

  /** `int(s)` of a string with nothing to strip: the sign-and-digits rule. */
  lemma ParseIntUnpadded(t: string)
    requires t != [] && !IsSpace(t[0]) && !IsSpace(t[|t| - 1])
    ensures ParseInt(t) == ParseSigned(t)
  {
    StripUnchanged(t, IsSpace);
  }

  function ParseSigned(t: string): Option<int> {
    if t == [] then None
    else if t[0] == '-' || t[0] == '+' then
      var ds := t[1..];
      if ds != [] && AllChars(ds, IsDigit) then
        var n: int := ParseDigits(ds);
        Some(if t[0] == '-' then -n else n)
      else None
    else if AllChars(t, IsDigit) then Some(ParseDigits(t))
    else None
  }

  /** Digits with a minus sign in front parse to the negated value. */
  lemma ParseSignedNegative(ds: string)
    requires ds != [] && AllChars(ds, IsDigit)
    ensures ParseSigned("-" + ds) == Some(-(ParseDigits(ds) as int))
  {
    var t := "-" + ds;
    assert t[0] == '-' && t[1..] == ds;
  }

  /** Bare digits parse to their value. */
  lemma ParseSignedDigits(ds: string)
    requires ds != [] && AllChars(ds, IsDigit)
    ensures ParseSigned(ds) == Some(ParseDigits(ds))
  {
    assert IsDigit(ds[0]);
  }

  /** `str(i)` has nothing for `int()` to strip. */
  lemma IntToStringUnpadded(i: int)
    ensures ParseInt(IntToString(i)) == ParseSigned(IntToString(i))
  {
    var s := IntToString(i);
    assert !IsSpace(s[0]) && !IsSpace(s[|s| - 1]);
    ParseIntUnpadded(s);
  }

  /** The sign-and-digits rule reads `str(i)` back as `i`. */
  lemma IntToStringSigned(i: int)
    ensures ParseSigned(IntToString(i)) == Some(i)
  {
    if i < 0 {
      var n: nat := -i;
      var ds := NatToString(n);
      assert IntToString(i) == "-" + ds;
      ParseSignedNegative(ds);
      ParseDigitsOfNat(n);
    } else {
      var n: nat := i;
      var ds := NatToString(n);
      assert IntToString(i) == ds;
      ParseSignedDigits(ds);
      ParseDigitsOfNat(n);
    }
  }

  /** `int(str(i)) == i`. */
  lemma IntToStringRoundTrip(i: int)
    ensures ParseInt(IntToString(i)) == Some(i)
  {
    IntToStringUnpadded(i);
    IntToStringSigned(i);
  }

  // ---------------------------------------------------------------------------
  // str() and repr()

  function HexDigit(d: nat): char
    requires d < 16
  {
    "0123456789abcdef"[d]
  }

  /** The characters `repr` writes as escapes rather than as themselves
      (those for which `str.isprintable` is false): the C0 and C1 controls,
      the no-break space and the soft hyphen of Latin-1, and beyond Latin-1
      the Ogham, general-punctuation and ideographic spaces, the line and
      paragraph separators, the general-punctuation format characters, the
      byte-order mark and the private-use area of the basic plane. */
  predicate Unprintable(c: char) {
    var n := c as int;
    || n < 0x20 || 0x7f <= n <= 0xa0 || n == 0xad
    || n == 0x1680 || 0x2000 <= n <= 0x200f || 0x2028 <= n <= 0x202f || 0x205f <= n <= 0x206f
    || n == 0x3000 || 0xe000 <= n <= 0xf8ff || n == 0xfeff
  }

  /** `n` as `width` lower-case hexadecimal digits. */
  function Hex(n: nat, width: nat): (r: string)
    ensures |r| == width
    ensures forall k :: 0 <= k < |r| ==> r[k] in "0123456789abcdef"
    decreases width
  {
    if width == 0 then "" else Hex(n / 16, width - 1) + [HexDigit(n % 16)]
  }

  /** One character as `repr` writes it between quotes `quote`. */
  function EscapeChar(c: char, quote: char): (r: string)
    ensures c != quote && c != '\\' && !Unprintable(c) ==> r == [c]
    ensures r != [] && (|r| > 1 ==> r[0] == '\\')
  {
    if c == '\\' then "\\\\"
    else if c == quote then ['\\', quote]
    else if c == '\n' then "\\n"
    else if c == '\r' then "\\r"
    else if c == '\t' then "\\t"
    else if Unprintable(c) then
      if c as int < 0x100 then "\\x" + Hex(c as int, 2) else "\\u" + Hex(c as int, 4)
    else [c]
  }

  function Escape(s: string, quote: char): string {
    if s == [] then "" else EscapeChar(s[0], quote) + Escape(s[1..], quote)
  }

  /** `repr(s)` for a string: single quotes unless the text holds a single
      quote and no double quote. */
  function ReprString(s: string): string {
    var q := if '\'' in s && '"' !in s then '"' else '\'';
    [q] + Escape(s, q) + [q]
  }

  /** `s.isprintable()`, for the characters `Unprintable` lists. */
  predicate Printable(s: string) {
    forall k :: 0 <= k < |s| ==> !Unprintable(s[k])
  }

  lemma PrintableAppend(a: string, b: string)
    requires Printable(a) && Printable(b)
    ensures Printable(a + b)
  {
    forall k | 0 <= k < |a + b| ensures !Unprintable((a + b)[k]) {
      if k >= |a| { assert (a + b)[k] == b[k - |a|]; }
    }
  }

  /** An escaped character is written with printable characters only. */
  lemma EscapeCharPrintable(c: char, quote: char)
    requires !Unprintable(quote)
    ensures Printable(EscapeChar(c, quote))
  {
    if Unprintable(c) && c != '\\' && c != quote && c != '\n' && c != '\r' && c != '\t' {
      var w := if c as int < 0x100 then 2 else 4;
      HexPrintable(Hex(c as int, w));
      var pre := if c as int < 0x100 then "\\x" else "\\u";
      PrintableAppend(pre, Hex(c as int, w));
    }
  }

  /** Hexadecimal digits are printable. */
  lemma HexPrintable(h: string)
    requires forall k :: 0 <= k < |h| ==> h[k] in "0123456789abcdef"
    ensures Printable(h)
  {
    forall k | 0 <= k < |h| ensures !Unprintable(h[k]) {
      assert h[k] in "0123456789abcdef";
    }
  }

  /** Escaping leaves no unprintable character behind. */
  lemma {:induction false} EscapePrintable(s: string, q: char)
    requires !Unprintable(q)
    ensures Printable(Escape(s, q))
  {
    if s != [] {
      EscapePrintable(s[1..], q);
      EscapeCharPrintable(s[0], q);
      PrintableAppend(EscapeChar(s[0], q), Escape(s[1..], q));
    }
  }

  /** Text with nothing to escape is written as it is. */
  lemma {:induction false} EscapePlain(s: string, q: char)
    requires forall k :: 0 <= k < |s| ==> s[k] != q && s[k] != '\\' && !Unprintable(s[k])
    ensures Escape(s, q) == s
  {
    if s != [] {
      EscapePlain(s[1..], q);
      assert s == [s[0]] + s[1..];
    }
  }

  /** `repr(s).isprintable()`: whatever the text, its `repr` is printable. */
  lemma ReprPrintable(s: string)
    ensures Printable(ReprString(s))
  {
    var q := if '\'' in s && '"' !in s then '"' else '\'';
    EscapePrintable(s, q);
    PrintableAppend([q], Escape(s, q));
    PrintableAppend([q] + Escape(s, q), [q]);
  }

  /** Printable text without quotes or backslashes is written between single
      quotes unchanged. */
  lemma ReprPlain(s: string)
    requires forall k :: 0 <= k < |s| ==> s[k] != '\'' && s[k] != '\\' && !Unprintable(s[k])
    ensures ReprString(s) == "'" + s + "'"
  {
    assert '\'' !in s;
    EscapePlain(s, '\'');
  }

  /** `repr(v)` of a value built from JSON. */
  function Repr(j: Json): string
    decreases j, 1
  {
    match j
    case Null => "None"
    case Bool(b) => if b then "True" else "False"
    case Int(i) => IntToString(i)
    case Float(r) => r
    case String(s) => ReprString(s)
    case Array(xs) => "[" + ReprItems(j, 0) + "]"
    case Object(ms) => "{" + ReprMembers(j, 0) + "}"
  }

  function ReprItems(j: Json, i: nat): string
    requires j.Array? && i <= |j.items|
    decreases j, 0, |j.items| - i
  {
    if i == |j.items| then ""
    else (if i == 0 then "" else ", ") + Repr(j.items[i]) + ReprItems(j, i + 1)
  }

  function ReprMembers(j: Json, i: nat): string
    requires j.Object? && i <= |j.members|
    decreases j, 0, |j.members| - i
  {
    if i == |j.members| then ""
    else
      (if i == 0 then "" else ", ") + ReprString(j.members[i].0) + ": "
      + Repr(j.members[i].1) + ReprMembers(j, i + 1)
  }

  /** `str(v)` (and `format(v, "")`, which f-strings use): a string is itself,
      every other value is its `repr`. */
  function Str(j: Json): string {
    if j.String? then j.s else Repr(j)
  }
}
