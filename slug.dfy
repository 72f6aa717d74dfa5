/**
 * The canonical slug that lets every source share one comment bucket per
 * title: the title lower-cased with white space and everything other than
 * a-z, 0-9 and the CJK Unified Ideographs block removed, then `-<year>` when a
 * non-blank year is given.
 */
module Slug {
  import opened Common
  import opened Text

  /**
   * `toLowerCase` on one character, for the ASCII letters: it never yields a
   * capital, it changes exactly the capitals, and `toUpperCase` restores a
   * lowered capital (so lowering is idempotent and loses nothing but case).
   */
  function LowerAscii(c: char): (r: char)
    ensures !('A' <= r <= 'Z')
    ensures r == c <==> !('A' <= c <= 'Z')
    ensures 'A' <= c <= 'Z' ==> 'a' <= r <= 'z' && UpperAscii(r) == c
  {
    if 'A' <= c <= 'Z' then (c as int + 32) as char else c
  }

  /** `toLowerCase` on a string, for the ASCII letters. */
  function LowerAll(s: string): string {
    if s == [] then [] else [LowerAscii(s[0])] + LowerAll(s[1..])
  }

  lemma {:induction false} LowerAllAt(s: string)
    ensures |LowerAll(s)| == |s|
    ensures forall i | 0 <= i < |s| :: LowerAll(s)[i] == LowerAscii(s[i])
  {
    if s != [] {
      LowerAllAt(s[1..]);
    }
  }

  /** The characters a slug keeps: `[a-z0-9一-鿿]`. */
  predicate IsSlugChar(c: char) {
    ('a' <= c <= 'z') || ('0' <= c <= '9') || ('\U{4E00}' <= c <= '\U{9FFF}')
  }

  predicate NotSpace(c: char) {
    !IsJsSpace(c)
  }

  /** The title part: lower-case, drop `\s+`, drop runs of anything not a slug character. */
  function NormTitle(title: string): (r: string)
    ensures forall i | 0 <= i < |r| :: IsSlugChar(r[i])
  {
    var r := Filter(IsSlugChar, Filter(NotSpace, LowerAll(title)));
    FilterOnlyKeeps(IsSlugChar, Filter(NotSpace, LowerAll(title)));
    r
  }

  /** The trimmed year, or None when it is missing or blank. */
  function YearPart(year: Option<string>): (r: Option<string>)
    ensures r.Some? ==> r.value != [] && year.Some? && !Blank(year.value)
    ensures r.None? <==> year.None? || Blank(year.value)
  {
    var y := Trim(year.GetOr(""));
    if y == [] then None else Some(y)
  }

  /**
   * `buildCanonicalSlug(title, year)`: null for a missing or blank title,
   * otherwise the normalised title, followed by `-` and the trimmed year when
   * that is non-empty.
   */
  function BuildCanonicalSlug(title: Option<string>, year: Option<string>): (r: Option<string>)
    ensures r.None? <==> title.None? || Blank(title.value)
    ensures r.Some? ==> NormTitle(title.value) <= r.value
    ensures r.Some? && YearPart(year).None? ==> r.value == NormTitle(title.value)
  {
    if title.None? || Trim(title.value) == [] then None
    else
      var normTitle := NormTitle(title.value);
      var normYear := YearPart(year);
      if normYear.Some? then Some(normTitle + "-" + normYear.value) else Some(normTitle)
  }

  // ----- reading a slug back -----

  /** Splits a slug at its first `-`: the title part and, when there is a dash, the rest. */
  function SplitAtDash(v: string): (string, Option<string>) {
    if v == [] then ([], None)
    else if v[0] == '-' then ([], Some(v[1..]))
    else
      var rest := SplitAtDash(v[1..]);
      ([v[0]] + rest.0, rest.1)
  }

  predicate DashFree(s: string) {
    forall i | 0 <= i < |s| :: s[i] != '-'
  }

  lemma {:induction false} SplitDashFree(p: string, tail: Option<string>)
    requires DashFree(p)
    ensures SplitAtDash(if tail.Some? then p + "-" + tail.value else p) == (p, tail)
  {
    var v := if tail.Some? then p + "-" + tail.value else p;
    if p == [] {
      if tail.Some? {
        assert v == ['-'] + tail.value;
        assert v[1..] == tail.value;
      }
    } else {
      assert v[0] == p[0] && p[0] != '-';
      var v' := if tail.Some? then p[1..] + "-" + tail.value else p[1..];
      assert v[1..] == v';
      SplitDashFree(p[1..], tail);
      assert [p[0]] + p[1..] == p;
    }
  }

  /**
   * A slug determines its parts: splitting it at the first dash gives back the
   * normalised title and the trimmed year (None when the year was blank).
   */
  lemma SlugSplits(title: Option<string>, year: Option<string>)
    requires BuildCanonicalSlug(title, year).Some?
    ensures SplitAtDash(BuildCanonicalSlug(title, year).value) == (NormTitle(title.value), YearPart(year))
  {
    SplitDashFree(NormTitle(title.value), YearPart(year));
  }

  // ----- what the normalisation ignores -----

  lemma SlugCharsAreNotSpace()
    ensures forall c :: IsSlugChar(c) ==> NotSpace(c)
  {
  }

  /** The white-space pass is subsumed by the character-class pass. */
  lemma NormTitleOneFilter(title: string)
    ensures NormTitle(title) == Filter(IsSlugChar, LowerAll(title))
  {
    SlugCharsAreNotSpace();
    FilterNested(IsSlugChar, NotSpace, LowerAll(title));
  }

  lemma LowerAllConcat(a: string, b: string)
    ensures LowerAll(a + b) == LowerAll(a) + LowerAll(b)
  {
    LowerAllAt(a + b);
    LowerAllAt(a);
    LowerAllAt(b);
    var l := LowerAll(a + b);
    assert forall i | 0 <= i < |a + b| :: l[i] == (LowerAll(a) + LowerAll(b))[i] by {
      forall i | 0 <= i < |a + b|
        ensures l[i] == (LowerAll(a) + LowerAll(b))[i]
      {
        if i < |a| { assert (a + b)[i] == a[i]; } else { assert (a + b)[i] == b[i - |a|]; }
      }
    }
  }

  /**
   * Characters that are not slug characters once lower-cased (spaces,
   * punctuation, kana, accented letters) can be inserted anywhere in a title
   * without changing its slug.
   */
  lemma NoiseIgnored(a: string, c: char, b: string, year: Option<string>)
    requires !IsSlugChar(LowerAscii(c))
    requires !Blank(a + b)
    ensures BuildCanonicalSlug(Some(a + [c] + b), year) == BuildCanonicalSlug(Some(a + b), year)
  {
    InsertKeepsNonBlank(a, c, b);
    NormTitleNoise(a, c, b);
  }

  lemma InsertKeepsNonBlank(a: string, c: char, b: string)
    requires !Blank(a + b)
    ensures !Blank(a + [c] + b)
  {
    var i :| 0 <= i < |a + b| && !IsJsSpace((a + b)[i]);
    if i < |a| {
      assert (a + [c] + b)[i] == (a + b)[i];
    } else {
      assert (a + [c] + b)[i + 1] == (a + b)[i];
    }
  }

  lemma NormTitleNoise(a: string, c: char, b: string)
    requires !IsSlugChar(LowerAscii(c))
    ensures NormTitle(a + [c] + b) == NormTitle(a + b)
  {
    NormTitleOneFilter(a + [c] + b);
    NormTitleOneFilter(a + b);
    LowerAllConcat(a + [c], b);
    LowerAllConcat(a, [c]);
    LowerAllConcat(a, b);
    var la, lc, lb := LowerAll(a), LowerAll([c]), LowerAll(b);
    FilterConcat(IsSlugChar, la + lc, lb);
    FilterConcat(IsSlugChar, la, lc);
    FilterConcat(IsSlugChar, la, lb);
    assert Filter(IsSlugChar, lc) == [] by {
      assert lc == [LowerAscii(c)];
      assert lc[1..] == [];
    }
  }

  lemma LowerKeepsSpaces(s: string)
    ensures Blank(s) <==> Blank(LowerAll(s))
  {
    LowerAllAt(s);
    assert forall i | 0 <= i < |s| :: IsJsSpace(s[i]) <==> IsJsSpace(LowerAll(s)[i]);
  }

  /** Titles that differ only in ASCII letter case share a slug. */
  lemma CaseIgnored(a: string, b: string, year: Option<string>)
    requires LowerAll(a) == LowerAll(b)
    ensures BuildCanonicalSlug(Some(a), year) == BuildCanonicalSlug(Some(b), year)
  {
    LowerKeepsSpaces(a);
    LowerKeepsSpaces(b);
  }

  /** A year-less slug is its own slug: normalising twice changes nothing. */
  lemma SlugIdempotent(title: string)
    requires BuildCanonicalSlug(Some(title), None).Some?
    requires BuildCanonicalSlug(Some(title), None).value != []
    ensures BuildCanonicalSlug(BuildCanonicalSlug(Some(title), None), None) == BuildCanonicalSlug(Some(title), None)
  {
    var v := NormTitle(title);
    assert v[0] == v[0] && IsSlugChar(v[0]) && !IsJsSpace(v[0]);
    assert !Blank(v);
    LowerAllAt(v);
    assert LowerAll(v) == v;
    SlugCharsAreNotSpace();
    FilterKeepsAll(NotSpace, v);
    FilterKeepsAll(IsSlugChar, v);
  }

  /**
   * A title with no slug character that is not blank either (`"!!!"`, say)
   * passes the null test and yields the empty slug, whatever the year.
   */
  lemma PunctuationOnlyTitle(title: string, year: Option<string>)
    requires !Blank(title)
    requires forall i | 0 <= i < |title| :: !IsSlugChar(LowerAscii(title[i]))
    ensures NormTitle(title) == []
    ensures BuildCanonicalSlug(Some(title), None) == Some("")
    ensures BuildCanonicalSlug(Some(title), year).Some?
  {
    NormTitleOneFilter(title);
    LowerAllAt(title);
    FilterDropsAll(IsSlugChar, LowerAll(title));
  }
}
