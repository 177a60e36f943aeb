/** The file-name slug `save_to_pdf` derives from a page url: the scheme
    (and, as intended, a `www.`) and one trailing slash are cut, every run of
    characters other than ASCII letters and digits becomes one `-`, dashes at
    either end are stripped, letters are lower-cased, and the result is cut
    to 50 characters. */
module Slug {
  import opened PyText

  /** `[a-zA-Z0-9]`. */
  predicate IsAlnum(c: char) {
    'a' <= c <= 'z' || 'A' <= c <= 'Z' || '0' <= c <= '9'
  }

  predicate NotAlnum(c: char) {
    !IsAlnum(c)
  }

  predicate IsDash(c: char) {
    c == '-'
  }

  /** The longest slug kept. */
  const MaxSlug := 50

  // ---------------------------------------------------------------------------
  // Cutting the url

  /** Length of the `^https?://` match, or 0. */
  function SchemeLength(u: string): (n: nat)
    ensures n <= |u|
  {
    if |u| >= 7 && u[..7] == "http://" then 7
    else if |u| >= 8 && u[..8] == "https://" then 8
    else 0
  }

  /** Length of the match of `^https?://(?:www\\.)?` as written: in a raw
      string `\\.` is a backslash followed by any character but a newline,
      so only `www\` and one more character are cut after the scheme. */
  function PrefixLength(u: string): (n: nat)
    ensures n <= |u|
  {
    var p := SchemeLength(u);
    if p > 0 && |u| >= p + 5 && u[p..p + 4] == "www\\" && u[p + 4] != '\n' then p + 5 else p
  }

  /** Length of the match of `^https?://(?:www\.)?`, which cuts `www.`. */
  function IntendedPrefixLength(u: string): (n: nat)
    ensures n <= |u|
  {
    var p := SchemeLength(u);
    if p > 0 && |u| >= p + 4 && u[p..p + 4] == "www." then p + 4 else p
  }

  /** The `/$` alternative: a slash at the very end, or just before a final
      newline, is removed. */
  function TrimSlash(rest: string): (r: string)
    ensures |r| <= |rest|
  {
    if |rest| >= 1 && rest[|rest| - 1] == '/' then rest[..|rest| - 1]
    else if |rest| >= 2 && rest[|rest| - 2..] == "/\n" then rest[..|rest| - 2] + "\n"
    else rest
  }

  /** `re.sub(r'^https?://(?:www\\.)?|/$', '', url)`. */
  function ShortUrl(u: string): string {
    TrimSlash(u[PrefixLength(u)..])
  }

  /** The same substitution with the pattern `^https?://(?:www\.)?|/$`. */
  function IntendedShortUrl(u: string): string {
    TrimSlash(u[IntendedPrefixLength(u)..])
  }

  /** The scheme's length is that of the scheme the url starts with. */
  lemma SchemeOf(scheme: string, rest: string)
    requires scheme == "http://" || scheme == "https://"
    ensures SchemeLength(scheme + rest) == |scheme|
  {
    var u := scheme + rest;
    assert u[..|scheme|] == scheme;
    if scheme == "https://" {
      assert u[..7][4] == 's';
    }
  }

  /** As written, `www.` survives the cut. */
  lemma WwwKept(scheme: string, host: string)
    requires scheme == "http://" || scheme == "https://"
    ensures ShortUrl(scheme + "www." + host) == TrimSlash("www." + host)
  {
    var u := scheme + "www." + host;
    assert u == scheme + ("www." + host);
    SchemeOf(scheme, "www." + host);
    var p := |scheme|;
    assert u[p + 3] == '.';
    assert u[p..p + 4][3] == '.';
    assert PrefixLength(u) == p;
    assert u[p..] == "www." + host;
  }

  /** As intended, `www.` is cut with the scheme. */
  lemma WwwCut(scheme: string, host: string)
    requires scheme == "http://" || scheme == "https://"
    ensures IntendedShortUrl(scheme + "www." + host) == TrimSlash(host)
  {
    var u := scheme + "www." + host;
    assert u == scheme + ("www." + host);
    SchemeOf(scheme, "www." + host);
    var p := |scheme|;
    assert u[p..p + 4] == "www.";
    assert IntendedPrefixLength(u) == p + 4;
    assert u[p + 4..] == host;
  }

  // ---------------------------------------------------------------------------
  // From the cut url to the slug

  /** `re.sub('[^a-zA-Z0-9]+', '-', s)`: each maximal run of other
      characters becomes a single dash. */
  function Collapse(s: string): (r: string)
    ensures r == [] <==> s == []
    ensures r != [] ==> (r[0] == '-' <==> !IsAlnum(s[0]))
    ensures forall i :: 0 <= i < |r| ==> IsAlnum(r[i]) || r[i] == '-'
    ensures NoDoubleDash(r)
    decreases |s|
  {
    if s == [] then []
    else if IsAlnum(s[0]) then
      var tail := Collapse(s[1..]);
      assert forall i :: 1 <= i < |tail| + 1 ==> ([s[0]] + tail)[i] == tail[i - 1];
      [s[0]] + tail
    else
      var t := StripLeft(s, NotAlnum);
      assert |t| < |s|;
      var tail := Collapse(t);
      assert forall i :: 1 <= i < |tail| + 1 ==> ("-" + tail)[i] == tail[i - 1];
      "-" + tail
  }

  /** ASCII lower-casing (only ASCII letters reach it). */
  function LowerChar(c: char): char {
    if 'A' <= c <= 'Z' then (c as int - 'A' as int + 'a' as int) as char else c
  }

  /** `s.lower()` on text of ASCII letters, digits and dashes. */
  function Lower(s: string): (r: string)
    ensures |r| == |s|
    ensures forall i :: 0 <= i < |s| ==> r[i] == LowerChar(s[i])
  {
    if s == [] then [] else [LowerChar(s[0])] + Lower(s[1..])
  }

  /** `slug[:50] if len(slug) > 50 else slug`. */
  function Truncate(s: string): (r: string)
    ensures |r| <= MaxSlug
    ensures |s| <= MaxSlug ==> r == s
    ensures |s| > MaxSlug ==> r == s[..MaxSlug]
  {
    if |s| > MaxSlug then s[..MaxSlug] else s
  }

  /** The slug of an already cut url. */
  function SlugOf(short: string): string {
    Truncate(Lower(StripBy(Collapse(short), IsDash)))
  }

  /** The slug `save_to_pdf` computes. */
  function Slug(url: string): string {
    SlugOf(ShortUrl(url))
  }

  /** The file `save_to_pdf` writes the page to, for a results directory
      and the webpage number as text. */
  function PdfPath(resultsPath: string, number: string, url: string): string {
    resultsPath + "/webpage-" + number + "/" + Slug(url) + ".pdf"
  }

  /** The slug with `www.` cut as the pattern intends. */
  function IntendedSlug(url: string): string {
    SlugOf(IntendedShortUrl(url))
  }

  // ---------------------------------------------------------------------------
  // Shape of a slug

  /** Only lower-case ASCII letters, digits and dashes. */
  predicate SlugChars(s: string) {
    forall i :: 0 <= i < |s| ==> 'a' <= s[i] <= 'z' || '0' <= s[i] <= '9' || s[i] == '-'
  }

  /** No two dashes in a row. */
  predicate NoDoubleDash(s: string) {
    forall i, j :: 0 <= i < |s| && j == i + 1 < |s| ==> !(s[i] == '-' && s[j] == '-')
  }

  /** A slice's characters are those of the text at the shifted place. */
  lemma SliceChars(c: string, st: string, i: int)
    requires 0 <= i && i + |st| <= |c| && c[i..i + |st|] == st
    ensures forall k :: 0 <= k < |st| ==> st[k] == c[i + k]
  {
    forall k | 0 <= k < |st| ensures st[k] == c[i + k] {
      assert st[k] == c[i..i + |st|][k];
    }
  }

  /** Stripping dashes leaves a slice: no new characters. */
  lemma StrippedChars(c: string)
    requires forall k :: 0 <= k < |c| ==> IsAlnum(c[k]) || c[k] == '-'
    ensures var st := StripBy(c, IsDash); forall k :: 0 <= k < |st| ==> IsAlnum(st[k]) || st[k] == '-'
  {
    var st := StripBy(c, IsDash);
    var i := StripStart(c, IsDash);
    SliceChars(c, st, i);
  }

  /** Stripping dashes leaves a slice: no new pair of dashes. */
  lemma StrippedSingleDashes(c: string)
    requires NoDoubleDash(c)
    ensures NoDoubleDash(StripBy(c, IsDash))
  {
    var st := StripBy(c, IsDash);
    var i := StripStart(c, IsDash);
    SliceChars(c, st, i);
    forall k, j | 0 <= k < |st| && j == k + 1 < |st| ensures !(st[k] == '-' && st[j] == '-') {
      assert st[k] == c[i + k] && st[j] == c[i + j];
    }
  }

  /** Lower-casing a letter, digit or dash gives a lower-case letter, a digit
      or a dash, and a dash only from a dash. */
  lemma LowerCharShape(c: char)
    requires IsAlnum(c) || c == '-'
    ensures var l := LowerChar(c); ('a' <= l <= 'z' || '0' <= l <= '9' || l == '-') && (l == '-' <==> c == '-')
  {
  }

  /** Lower-casing keeps dashes where they are and turns letters into
      lower-case ones. */
  lemma LowerShape(st: string)
    requires forall k :: 0 <= k < |st| ==> IsAlnum(st[k]) || st[k] == '-'
    ensures SlugChars(Lower(st))
    ensures NoDoubleDash(st) ==> NoDoubleDash(Lower(st))
    ensures st != [] && st[0] != '-' ==> Lower(st)[0] != '-'
  {
    var l := Lower(st);
    forall k | 0 <= k < |st| ensures ('a' <= l[k] <= 'z' || '0' <= l[k] <= '9' || l[k] == '-') && (l[k] == '-' <==> st[k] == '-') {
      LowerCharShape(st[k]);
    }
  }

  /** Every slug is short, made of lower-case letters, digits and single
      dashes, and does not start with a dash. */
  lemma SlugShape(short: string)
    ensures var s := SlugOf(short);
      && |s| <= MaxSlug
      && SlugChars(s)
      && NoDoubleDash(s)
      && (s != [] ==> s[0] != '-')
  {
    var c := Collapse(short);
    var st := StripBy(c, IsDash);
    StrippedChars(c);
    StrippedSingleDashes(c);
    LoweredShape(st);
    assert SlugOf(short) == Truncate(Lower(st));
  }

  /** Lower-casing then truncating a stripped, collapsed string keeps its shape. */
  lemma LoweredShape(st: string)
    requires forall k :: 0 <= k < |st| ==> IsAlnum(st[k]) || st[k] == '-'
    requires NoDoubleDash(st) && (st != [] ==> st[0] != '-')
    ensures var s := Truncate(Lower(st));
      && |s| <= MaxSlug
      && SlugChars(s)
      && NoDoubleDash(s)
      && (s != [] ==> s[0] != '-')
  {
    LowerShape(st);
    TruncateShape(Lower(st));
  }

  /** Cutting keeps a prefix, so the shape survives. */
  lemma TruncateShape(l: string)
    requires SlugChars(l) && NoDoubleDash(l) && (l != [] ==> l[0] != '-')
    ensures var s := Truncate(l); SlugChars(s) && NoDoubleDash(s) && (s != [] ==> s[0] != '-')
  {
    var s := Truncate(l);
    assert forall k :: 0 <= k < |s| ==> s[k] == l[k];
  }

  // ---------------------------------------------------------------------------
  // What the slug keeps

  /** The letters and digits of a text, in order. */
  function Alnums(s: string): (r: string)
    ensures forall i :: 0 <= i < |r| ==> IsAlnum(r[i])
  {
    if s == [] then [] else (if IsAlnum(s[0]) then [s[0]] else []) + Alnums(s[1..])
  }

  lemma {:induction false} AlnumsAppend(a: string, b: string)
    ensures Alnums(a + b) == Alnums(a) + Alnums(b)
    decreases |a|
  {
    if a == [] {
      assert a + b == b;
    } else {
      var ab := a + b;
      assert ab[0] == a[0];
      assert ab[1..] == a[1..] + b;
      AlnumsAppend(a[1..], b);
      var h := if IsAlnum(a[0]) then [a[0]] else [];
      var ra, rb := Alnums(a[1..]), Alnums(b);
      assert Alnums(ab) == h + (ra + rb);
      assert Alnums(a) == h + ra;
      assert h + (ra + rb) == h + ra + rb;
    }
  }

  /** No letter or digit. */
  predicate NoAlnum(s: string) {
    forall k :: 0 <= k < |s| ==> !IsAlnum(s[k])
  }

  lemma {:induction false} AlnumsNone(s: string)
    requires NoAlnum(s)
    ensures Alnums(s) == []
    decreases |s|
  {
    if s != [] {
      assert !IsAlnum(s[0]);
      AlnumsNone(s[1..]);
    }
  }

  /** Collapsing runs keeps every letter and digit, in order. */
  lemma {:induction false} CollapseKeepsAlnums(s: string)
    ensures Alnums(Collapse(s)) == Alnums(s)
    decreases |s|
  {
    if s != [] {
      if IsAlnum(s[0]) {
        CollapseKeepsAlnums(s[1..]);
        AlnumsAppend([s[0]], Collapse(s[1..]));
      } else {
        var t := StripLeft(s, NotAlnum);
        var k := |s| - |t|;
        assert s == s[..k] + t;
        assert |t| < |s|;
        CollapseKeepsAlnums(t);
        AlnumsAppend("-", Collapse(t));
        AlnumsAppend(s[..k], t);
        AlnumsNone(s[..k]);
      }
    }
  }

  /** Text with only separators around it has the letters and digits of
      the middle. */
  lemma AlnumsAround(front: string, mid: string, back: string)
    requires NoAlnum(front) && NoAlnum(back)
    ensures Alnums(front + mid + back) == Alnums(mid)
  {
    AlnumsAppend(front + mid, back);
    AlnumsAppend(front, mid);
    AlnumsNone(front);
    AlnumsNone(back);
    assert Alnums(front + mid + back) == [] + Alnums(mid) + [];
  }

  /** Stripping dashes leaves the text with only dashes before and after. */
  lemma DashesAround(c: string)
    ensures var i := StripStart(c, IsDash);
      var st := StripBy(c, IsDash);
      c == c[..i] + st + c[i + |st|..] && NoAlnum(c[..i]) && NoAlnum(c[i + |st|..])
  {
    var st := StripBy(c, IsDash);
    var i := StripStart(c, IsDash);
    var front := c[..i];
    var back := c[i + |st|..];
    assert StrippedAt(c, st, i, IsDash);
    SliceAround(c, i, i + |st|);
    DashesNoAlnum(front);
    DashesNoAlnum(back);
  }

  lemma DashesNoAlnum(s: string)
    requires AllChars(s, IsDash)
    ensures NoAlnum(s)
  {
  }

  /** Stripping dashes keeps every letter and digit. */
  lemma StripKeepsAlnums(c: string)
    ensures Alnums(StripBy(c, IsDash)) == Alnums(c)
  {
    var st := StripBy(c, IsDash);
    var i := StripStart(c, IsDash);
    DashesAround(c);
    AlnumsAround(c[..i], st, c[i + |st|..]);
  }

  /** Lower-casing works character by character. */
  lemma LowerAppend(a: string, b: string)
    ensures Lower(a + b) == Lower(a) + Lower(b)
  {
    var l := Lower(a + b);
    assert forall k :: 0 <= k < |l| ==> l[k] == (Lower(a) + Lower(b))[k];
  }

  /** The letters and digits of a single character. */
  lemma AlnumsSingle(c: char)
    ensures Alnums([c]) == if IsAlnum(c) then [c] else []
  {
    assert [c][1..] == [];
  }

  lemma {:induction false} LowerAlnums(s: string)
    ensures Alnums(Lower(s)) == Lower(Alnums(s))
    decreases |s|
  {
    if s != [] {
      var x, t := s[0], s[1..];
      assert s == [x] + t;
      var y := LowerChar(x);
      var h := if IsAlnum(x) then [x] else [];
      LowerAppend([x], t);
      assert Lower([x]) == [y];
      AlnumsAppend([y], Lower(t));
      AlnumsSingle(y);
      assert IsAlnum(y) <==> IsAlnum(x);
      LowerAlnums(t);
      AlnumsAppend([x], t);
      AlnumsSingle(x);
      LowerAppend(h, Alnums(t));
      assert Lower(h) == if IsAlnum(x) then [y] else [];
    }
  }

  /** A slug that is not cut short holds exactly the letters and digits of
      the cut url, lower-cased, in order: only separators are lost. */
  lemma SlugKeepsAlnums(short: string)
    requires |Lower(StripBy(Collapse(short), IsDash))| <= MaxSlug
    ensures Alnums(SlugOf(short)) == Lower(Alnums(short))
  {
    var c := Collapse(short);
    var st := StripBy(c, IsDash);
    assert SlugOf(short) == Lower(st);
    CollapseKeepsAlnums(short);
    StripKeepsAlnums(c);
    assert Alnums(st) == Alnums(short);
    LowerAlnums(st);
  }
}
