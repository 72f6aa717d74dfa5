/**
 * The JavaScript string primitives the danmaku code relies on: white space as
 * `trim` and `\s` see it, `includes`, filtering characters out, `padStart`,
 * `Number.prototype.toString(radix)` for non-negative integers, `String(n)`
 * and `parseInt` without a radix.
 */
module Text {
  import opened Common

  /** The characters of ECMAScript's WhiteSpace and LineTerminator productions. */
  predicate IsJsSpace(c: char) {
    ('\t' <= c <= '\r') || c == ' ' || c == '\U{00A0}' || c == '\U{1680}'
    || ('\U{2000}' <= c <= '\U{200A}') || c == '\U{2028}' || c == '\U{2029}'
    || c == '\U{202F}' || c == '\U{205F}' || c == '\U{3000}' || c == '\U{FEFF}'
  }

  predicate Blank(s: string) {
    forall i | 0 <= i < |s| :: IsJsSpace(s[i])
  }

  /** `toUpperCase` on one character, for the ASCII letters. */
  function UpperAscii(c: char): char {
    if 'a' <= c <= 'z' then (c as int - 32) as char else c
  }

  /** Drops leading white space (`trimStart`). */
  function TrimStart(s: string): string {
    if s != [] && IsJsSpace(s[0]) then TrimStart(s[1..]) else s
  }

  /** Drops trailing white space (`trimEnd`). */
  function TrimEnd(s: string): string {
    if s != [] && IsJsSpace(s[|s| - 1]) then TrimEnd(s[..|s| - 1]) else s
  }

  /** `TrimStart` removes a blank prefix and stops at the first other character. */
  lemma {:induction false} TrimStartRemovesSpace(s: string)
    ensures |TrimStart(s)| <= |s| && s == s[..|s| - |TrimStart(s)|] + TrimStart(s)
    ensures Blank(s[..|s| - |TrimStart(s)|])
    ensures TrimStart(s) == [] || !IsJsSpace(TrimStart(s)[0])
  {
    if s != [] && IsJsSpace(s[0]) {
      TrimStartRemovesSpace(s[1..]);
      var k := |s| - |TrimStart(s)|;
      assert s[..k] == [s[0]] + s[1..][..k - 1];
    }
  }

  /** `TrimEnd` removes a blank suffix and stops at the last other character. */
  lemma {:induction false} TrimEndRemovesSpace(s: string)
    ensures |TrimEnd(s)| <= |s| && s == TrimEnd(s) + s[|TrimEnd(s)|..]
    ensures Blank(s[|TrimEnd(s)|..])
    ensures TrimEnd(s) == [] || !IsJsSpace(TrimEnd(s)[|TrimEnd(s)| - 1])
  {
    if s != [] && IsJsSpace(s[|s| - 1]) {
      var p := s[..|s| - 1];
      TrimEndRemovesSpace(p);
      var k := |TrimEnd(p)|;
      assert TrimEnd(p) == p[..k] == s[..k];
      forall i | k <= i < |s|
        ensures IsJsSpace(s[i])
      {
        if i < |s| - 1 {
          assert s[i] == p[k..][i - k];
        }
      }
      assert s == s[..k] + s[k..];
    }
  }

  /**
   * `String.prototype.trim`: the slice of `s` left once a blank prefix and a
   * blank suffix are removed, and neither end of it is white space.
   */
  function Trim(s: string): (r: string)
    ensures exists i, j | 0 <= i <= j <= |s| :: r == s[i..j] && Blank(s[..i]) && Blank(s[j..])
    ensures r == [] <==> Blank(s)
    ensures r != [] ==> !IsJsSpace(r[0]) && !IsJsSpace(r[|r| - 1])
  {
    TrimBothEnds(s, TrimEnd(TrimStart(s)));
    TrimEnd(TrimStart(s))
  }

  lemma TrimBothEnds(s: string, r: string)
    requires r == TrimEnd(TrimStart(s))
    ensures exists i, j | 0 <= i <= j <= |s| :: r == s[i..j] && Blank(s[..i]) && Blank(s[j..])
    ensures r == [] <==> Blank(s)
    ensures r != [] ==> !IsJsSpace(r[0]) && !IsJsSpace(r[|r| - 1])
  {
    var t := TrimStart(s);
    TrimStartRemovesSpace(s);
    TrimEndRemovesSpace(t);
    var i := |s| - |t|;
    var j := i + |r|;
    TrimSlice(s, t, r);
    assert r == s[i..j] && Blank(s[..i]) && Blank(s[j..]);
    if r == [] {
      BlankJoin(s, i);
    } else {
      assert r[0] == t[0];
      assert s[i] == t[0];
    }
  }

  lemma TrimSlice(s: string, t: string, r: string)
    requires |t| <= |s| && s == s[..|s| - |t|] + t
    requires |r| <= |t| && t == r + t[|r|..]
    ensures s[|s| - |t|..|s| - |t| + |r|] == r
    ensures s[|s| - |t| + |r|..] == t[|r|..]
  {
    var i := |s| - |t|;
    assert s[i..] == t;
  }

  /** A string made of a blank prefix and a blank suffix is blank. */
  lemma BlankJoin(s: string, i: nat)
    requires i <= |s| && Blank(s[..i]) && Blank(s[i..])
    ensures Blank(s)
  {
    forall k | 0 <= k < |s|
      ensures IsJsSpace(s[k])
    {
      if k < i {
        assert s[k] == s[..i][k];
      } else {
        assert s[k] == s[i..][k - i];
      }
    }
  }

  /** A string none of whose characters is white space trims to itself. */
  lemma TrimWithoutSpaces(s: string)
    requires forall i | 0 <= i < |s| :: !IsJsSpace(s[i])
    ensures Trim(s) == s
  {
    assert TrimStart(s) == s;
    assert TrimEnd(s) == s;
  }

  /** `s.includes(part)`. */
  predicate Contains(s: string, part: string)
    decreases |s|
  {
    part <= s || (s != [] && Contains(s[1..], part))
  }

  /** The characters of `s` that satisfy `keep`, in order (a global `replace` with ''). */
  function Filter(keep: char -> bool, s: string): string {
    if s == [] then [] else (if keep(s[0]) then [s[0]] else []) + Filter(keep, s[1..])
  }

  /** Every character of a filtered string passes the test, and none is added. */
  lemma {:induction false} FilterOnlyKeeps(keep: char -> bool, s: string)
    ensures |Filter(keep, s)| <= |s|
    ensures forall i | 0 <= i < |Filter(keep, s)| :: keep(Filter(keep, s)[i])
  {
    if s != [] {
      FilterOnlyKeeps(keep, s[1..]);
    }
  }

  lemma {:induction false} FilterConcat(keep: char -> bool, a: string, b: string)
    ensures Filter(keep, a + b) == Filter(keep, a) + Filter(keep, b)
  {
    if a == [] {
      assert a + b == b;
    } else {
      var head := if keep(a[0]) then [a[0]] else [];
      assert (a + b)[0] == a[0];
      assert (a + b)[1..] == a[1..] + b;
      assert Filter(keep, a + b) == head + Filter(keep, a[1..] + b);
      FilterConcat(keep, a[1..], b);
      assert Filter(keep, a) == head + Filter(keep, a[1..]);
    }
  }

  /** Filtering keeps a string whose every character passes. */
  lemma {:induction false} FilterKeepsAll(keep: char -> bool, s: string)
    requires forall i | 0 <= i < |s| :: keep(s[i])
    ensures Filter(keep, s) == s
  {
    if s != [] {
      FilterKeepsAll(keep, s[1..]);
    }
  }

  /** Filtering twice with the same test is filtering once. */
  /** A test no character passes filters everything out. */
  lemma {:induction false} FilterDropsAll(keep: char -> bool, s: string)
    requires forall i | 0 <= i < |s| :: !keep(s[i])
    ensures Filter(keep, s) == []
  {
    if s != [] {
      FilterDropsAll(keep, s[1..]);
    }
  }

  lemma FilterIdempotent(keep: char -> bool, s: string)
    ensures Filter(keep, Filter(keep, s)) == Filter(keep, s)
  {
    FilterOnlyKeeps(keep, s);
    FilterKeepsAll(keep, Filter(keep, s));
  }

  /** A stricter second filter makes the first one redundant. */
  lemma {:induction false} FilterNested(outer: char -> bool, inner: char -> bool, s: string)
    requires forall c :: outer(c) ==> inner(c)
    ensures Filter(outer, Filter(inner, s)) == Filter(outer, s)
  {
    if s != [] {
      FilterNested(outer, inner, s[1..]);
      var rest := Filter(inner, s[1..]);
      if inner(s[0]) {
        assert Filter(inner, s) == [s[0]] + rest;
        FilterConcat(outer, [s[0]], rest);
        assert [s[0]][1..] == [];
        assert Filter(outer, [s[0]]) == (if outer(s[0]) then [s[0]] else []) + Filter(outer, []);
      } else {
        assert !outer(s[0]);
        assert Filter(inner, s) == rest;
        assert Filter(outer, s) == Filter(outer, s[1..]);
      }
    }
  }

  // ----- split and join -----

  /** `parts.join(sep)`. */
  function Join(parts: seq<string>, sep: char): string {
    if parts == [] then ""
    else if |parts| == 1 then parts[0]
    else parts[0] + [sep] + Join(parts[1..], sep)
  }

  /** `s.split(sep)`. */
  function Split(s: string, sep: char): seq<string>
    ensures Split(s, sep) != []
  {
    if s == [] then [""]
    else
      var rest := Split(s[1..], sep);
      if s[0] == sep then [""] + rest else [[s[0]] + rest[0]] + rest[1..]
  }

  predicate Excludes(s: string, c: char) {
    forall i | 0 <= i < |s| :: s[i] != c
  }

  lemma {:induction false} SplitPlain(s: string, sep: char, tail: string)
    requires Excludes(s, sep)
    ensures Split(s + tail, sep) == [s + Split(tail, sep)[0]] + Split(tail, sep)[1..]
  {
    if s != [] {
      var t := Split(tail, sep);
      assert (s + tail)[0] == s[0] && s[0] != sep;
      assert (s + tail)[1..] == s[1..] + tail;
      SplitPlain(s[1..], sep, tail);
      assert [s[0]] + (s[1..] + t[0]) == s + t[0];
    } else {
      var t := Split(tail, sep);
      assert s + tail == tail && s + t[0] == t[0];
      assert [t[0]] + t[1..] == t;
    }
  }

  /** Splitting a join at the separator gives back the parts, when no part holds it. */
  lemma {:induction false} SplitJoin(parts: seq<string>, sep: char)
    requires parts != []
    requires forall i | 0 <= i < |parts| :: Excludes(parts[i], sep)
    ensures Split(Join(parts, sep), sep) == parts
  {
    if |parts| == 1 {
      SplitPlain(parts[0], sep, "");
      assert parts[0] + "" == parts[0];
    } else {
      var rest := Join(parts[1..], sep);
      SplitJoin(parts[1..], sep);
      SplitPlain(parts[0], sep, [sep] + rest);
      assert ([sep] + rest)[1..] == rest;
      assert Split([sep] + rest, sep) == [""] + parts[1..];
      assert parts[0] + "" == parts[0];
      assert parts[0] + [sep] + rest == parts[0] + ([sep] + rest);
      assert parts == [parts[0]] + parts[1..];
    }
  }

  // ----- padding -----

  /** `s.padStart(width, fill)` with a one-character fill. */
  function PadStart(s: string, width: nat, fill: char): (r: string)
    ensures |r| == if |s| >= width then |s| else width
    ensures r[|r| - |s|..] == s
    ensures forall i | 0 <= i < |r| - |s| :: r[i] == fill
  {
    if |s| >= width then s else seq(width - |s|, _ => fill) + s
  }

  // ----- digits -----

  /** The value of a digit character in radix up to 36 (either case); 36 for anything else. */
  function DigitOf(c: char): nat {
    if '0' <= c <= '9' then c as nat - '0' as nat
    else if 'a' <= c <= 'z' then c as nat - 'a' as nat + 10
    else if 'A' <= c <= 'Z' then c as nat - 'A' as nat + 10
    else 36
  }

  predicate IsDigits(s: string, radix: nat) {
    forall i | 0 <= i < |s| :: DigitOf(s[i]) < radix
  }

  /** The lower-case digit `toString` writes for `d`. */
  function DigitChar(d: nat): (c: char)
    requires d < 16
    ensures DigitOf(c) == d
  {
    if d < 10 then ('0' as int + d) as char else ('a' as int + d - 10) as char
  }

  /** `n.toString(radix)` for a non-negative integer: no leading zeros, lower case. */
  function NatToDigits(n: nat, radix: nat): (r: string)
    requires 2 <= radix <= 16
    decreases n
  {
    if n < radix then [DigitChar(n)] else NatToDigits(n / radix, radix) + [DigitChar(n % radix)]
  }

  /** The number a digit string denotes (leading zeros allowed). */
  function DigitsValue(s: string, radix: nat): nat {
    if s == [] then 0
    else DigitsValue(s[..|s| - 1], radix) * radix + (if DigitOf(s[|s| - 1]) < radix then DigitOf(s[|s| - 1]) else 0)
  }

  /** `toString(radix)` writes at least one digit, and only digits of the radix. */
  lemma {:induction false} DigitsWellFormed(n: nat, radix: nat)
    requires 2 <= radix <= 16
    ensures NatToDigits(n, radix) != []
    ensures IsDigits(NatToDigits(n, radix), radix)
  {
    if n >= radix {
      DigitsWellFormed(n / radix, radix);
    }
  }

  /** Writing a number in a radix and reading it back gives the number. */
  lemma {:induction false} DigitsRoundTrip(n: nat, radix: nat)
    requires 2 <= radix <= 16
    decreases n, 1
    ensures DigitsValue(NatToDigits(n, radix), radix) == n
  {
    if n >= radix {
      DigitsRoundTripStep(n, radix);
    } else {
      DigitsValueSnoc([], DigitChar(n), radix);
    }
  }

  lemma {:induction false} DigitsRoundTripStep(n: nat, radix: nat)
    requires 2 <= radix <= n && radix <= 16
    decreases n, 0
    ensures DigitsValue(NatToDigits(n, radix), radix) == n
  {
    var q, d := n / radix, n % radix;
    var p := NatToDigits(q, radix);
    assert NatToDigits(n, radix) == p + [DigitChar(d)];
    DivMod(n, radix);
    QuotientSmaller(n, radix);
    DigitsRoundTrip(q, radix);
    DigitsValueAppend(p, DigitChar(d), radix, q, d, n);
  }

  lemma QuotientSmaller(n: nat, radix: nat)
    requires 2 <= radix <= n
    ensures n / radix < n
  {
    var q := n / radix;
    DivMod(n, radix);
    MulAtLeastDouble(q, radix);
  }

  lemma MulAtLeastDouble(q: nat, radix: nat)
    requires radix >= 2
    ensures q * radix >= 2 * q
  {
    var k: nat := radix - 2;
    assert q * radix == q * k + 2 * q;
  }

  lemma DigitsValueAppend(p: string, c: char, radix: nat, q: nat, d: nat, n: nat)
    requires DigitsValue(p, radix) == q && DigitOf(c) == d < radix && q * radix + d == n
    ensures DigitsValue(p + [c], radix) == n
  {
    DigitsValueSnoc(p, c, radix);
  }

  lemma DigitsValueSnoc(p: string, c: char, radix: nat)
    requires DigitOf(c) < radix
    ensures DigitsValue(p + [c], radix) == DigitsValue(p, radix) * radix + DigitOf(c)
  {
    assert (p + [c])[..|p|] == p;
  }

  lemma DivMod(n: nat, radix: nat)
    requires radix > 0
    ensures (n / radix) * radix + n % radix == n
  {
  }

  /** Leading zeros do not change a digit string's value. */
  lemma {:induction false} LeadingZeros(k: nat, s: string, radix: nat)
    requires 2 <= radix
    ensures DigitsValue(seq(k, _ => '0') + s, radix) == DigitsValue(s, radix)
  {
    if s == [] {
      if k > 0 {
        var z := seq(k, _ => '0');
        assert z + s == z;
        assert z[..k - 1] == seq(k - 1, _ => '0');
        LeadingZeros(k - 1, [], radix);
        assert seq(k - 1, _ => '0') + [] == seq(k - 1, _ => '0');
      }
    } else {
      var z := seq(k, _ => '0');
      assert (z + s)[..|z + s| - 1] == z + s[..|s| - 1];
      LeadingZeros(k, s[..|s| - 1], radix);
    }
  }

  /** A number below 16^width has at most `width` hexadecimal digits (at least one). */
  lemma {:induction false} HexLengthBound(n: nat, width: nat)
    requires width >= 1 && n < Pow(16, width)
    ensures |NatToDigits(n, 16)| <= width
  {
    if n >= 16 {
      assert width >= 2;
      assert Pow(16, width) == 16 * Pow(16, width - 1);
      HexLengthBound(n / 16, width - 1);
    }
  }

  function Pow(b: nat, e: nat): nat {
    if e == 0 then 1 else b * Pow(b, e - 1)
  }

  /** `String(n)` for an integer. */
  function IntToDecimal(n: int): string {
    if n < 0 then "-" + NatToDigits(-n, 10) else NatToDigits(n, 10)
  }

  /** `String(v)` of a JSON scalar. */
  function PrimText(v: Prim): string {
    match v
    case PStr(s) => s
    case PNum(n) => IntToDecimal(n)
    case PBool(b) => if b then "true" else "false"
  }

  /** `String(x)` of what `parseInt` returned: a number, or `NaN`. */
  function NumberText(x: Option<int>): string {
    if x.Some? then IntToDecimal(x.value) else "NaN"
  }

  // ----- parseInt -----

  /** The longest prefix of `s` made of digits of the radix. */
  function DigitPrefix(s: string, radix: nat): (r: string)
    ensures |r| <= |s| && r == s[..|r|]
    ensures IsDigits(r, radix)
    ensures |r| < |s| ==> DigitOf(s[|r|]) >= radix
  {
    if s != [] && DigitOf(s[0]) < radix then [s[0]] + DigitPrefix(s[1..], radix) else []
  }

  /**
   * `parseInt(s)` with no radix: leading white space skipped, an optional sign,
   * a `0x`/`0X` prefix selecting radix 16, then the longest run of digits;
   * None is `NaN` (no digits at all).
   */
  function ParseIntJs(s: string): Option<int> {
    var t := TrimStart(s);
    var negative := t != [] && t[0] == '-';
    var magnitude := ParseMagnitude(if t != [] && (t[0] == '-' || t[0] == '+') then t[1..] else t);
    if magnitude.None? then None
    else if negative then Some(-magnitude.value)
    else magnitude
  }

  /** The unsigned part of `parseInt`: `0x` selects hexadecimal, otherwise decimal digits. */
  function ParseMagnitude(u: string): Option<int> {
    if |u| >= 2 && u[0] == '0' && (u[1] == 'x' || u[1] == 'X') then
      var digits := DigitPrefix(u[2..], 16);
      if digits == [] then None else Some(DigitsValue(digits, 16))
    else
      var digits := DigitPrefix(u, 10);
      if digits == [] then None else Some(DigitsValue(digits, 10))
  }

  /** `parseInt(String(n))` is n for every non-negative integer. */
  lemma ParseIntOfDecimal(n: nat)
    ensures ParseIntJs(NatToDigits(n, 10)) == Some(n)
  {
    DigitsWellFormed(n, 10);
    DigitsRoundTrip(n, 10);
    ParseIntOfDigits(NatToDigits(n, 10));
  }

  /** `parseInt` reads a plain string of decimal digits as its value. */
  lemma ParseIntOfDigits(s: string)
    requires s != [] && IsDigits(s, 10)
    ensures ParseIntJs(s) == Some(DigitsValue(s, 10))
  {
    assert DigitOf(s[0]) < 10;
    ParseIntOfUnsigned(s);
    MagnitudeOfDigits(s);
  }

  /** Without leading white space or a sign, `parseInt` reads the magnitude alone. */
  lemma ParseIntOfUnsigned(s: string)
    requires s != [] && !IsJsSpace(s[0]) && s[0] != '-' && s[0] != '+'
    ensures ParseIntJs(s) == ParseMagnitude(s)
  {
    assert TrimStart(s) == s;
  }

  lemma MagnitudeOfDigits(s: string)
    requires s != [] && IsDigits(s, 10)
    ensures ParseMagnitude(s) == Some(DigitsValue(s, 10))
  {
    assert |s| >= 2 ==> DigitOf(s[1]) < 10;
    DigitPrefixAll(s, 10);
  }

  lemma {:induction false} DigitPrefixAll(s: string, radix: nat)
    requires IsDigits(s, radix)
    ensures DigitPrefix(s, radix) == s
  {
    if s != [] {
      DigitPrefixAll(s[1..], radix);
    }
  }
}
