/** The string operations the input forms and the scenario naming use:
    decimal rendering of whole numbers (`${n}`), `String.prototype.replace`
    with a plain pattern (first occurrence) and with a global character class,
    `parseFloat`, and `String.prototype.trim`. */
module JsText {
  import opened Wrappers

  predicate IsDigit(c: char) {
    '0' <= c <= '9'
  }

  predicate AllDigits(s: string) {
    forall i :: 0 <= i < |s| ==> IsDigit(s[i])
  }

  function DigitValue(c: char): (d: nat)
    requires IsDigit(c)
    ensures d < 10
  {
    c as int - '0' as int
  }

  function DigitChar(d: nat): (c: char)
    requires d < 10
    ensures IsDigit(c) && DigitValue(c) == d
  {
    ('0' as int + d) as char
  }

  function Pow10(n: nat): (r: nat)
    ensures r >= 1
  {
    if n == 0 then 1 else 10 * Pow10(n - 1)
  }

  /** The value of a string of decimal digits (as `parseInt` reads it). */
  function DigitsValue(ds: string): nat
    requires AllDigits(ds)
  {
    if ds == [] then 0
    else DigitsValue(ds[..|ds| - 1]) * 10 + DigitValue(ds[|ds| - 1])
  }

  /** The value of the digits after a decimal point. */
  function FractionValue(ds: string): (r: real)
    requires AllDigits(ds)
    ensures r >= 0.0
  {
    DigitsValue(ds) as real / Pow10(|ds|) as real
  }

  /** `${n}` for a whole number: its decimal digits, no leading zero. */
  function Decimal(n: nat): (s: string)
    ensures |s| > 0 && AllDigits(s)
    ensures |s| > 1 ==> s[0] != '0'
  {
    if n < 10 then [DigitChar(n)] else Decimal(n / 10) + [DigitChar(n % 10)]
  }

  /** Reading back the decimal rendering of a number gives the number. */
  lemma {:induction false} DecimalRoundTrip(n: nat)
    ensures DigitsValue(Decimal(n)) == n
  {
    var s := Decimal(n);
    if n >= 10 {
      assert s[..|s| - 1] == Decimal(n / 10);
      DecimalRoundTrip(n / 10);
    }
  }

  /** The length of the longest run of digits at the start of `s`. */
  function LeadingDigits(s: string): (n: nat)
    ensures n <= |s|
    ensures AllDigits(s[..n])
    ensures n < |s| ==> !IsDigit(s[n])
  {
    if |s| == 0 || !IsDigit(s[0]) then 0
    else
      var m := LeadingDigits(s[1..]);
      assert s[..m + 1] == [s[0]] + s[1..][..m];
      m + 1
  }

  lemma {:induction false} LeadingDigitsOfDigits(a: string, b: string)
    requires AllDigits(a)
    requires b == [] || !IsDigit(b[0])
    ensures LeadingDigits(a + b) == |a|
  {
    if a != [] {
      assert (a + b)[1..] == a[1..] + b;
      LeadingDigitsOfDigits(a[1..], b);
    } else {
      assert a + b == b;
    }
  }

  /** `s.replace(c, d)` with a one-character string pattern: only the first
      occurrence of `c` is replaced. */
  function ReplaceFirst(s: string, c: char, d: char): (r: string)
    ensures |r| == |s|
    ensures forall i :: 0 <= i < |s| ==> r[i] == (if s[i] == c && c !in s[..i] then d else s[i])
  {
    if s == [] then []
    else if s[0] == c then [d] + s[1..]
    else
      var t := ReplaceFirst(s[1..], c, d);
      assert forall i :: 1 <= i < |s| ==> s[..i] == [s[0]] + s[1..][..i - 1];
      [s[0]] + t
  }

  /** `s.replace(/[^...]/g, '')` and `s.replace(/\./g, '')`: the characters
      of `s` that `keep` accepts, in order. */
  function Filter(s: string, keep: char -> bool): (r: string)
    ensures |r| <= |s|
    ensures forall i :: 0 <= i < |r| ==> keep(r[i])
    ensures forall x :: x in r <==> x in s && keep(x)
  {
    if s == [] then []
    else if keep(s[0]) then [s[0]] + Filter(s[1..], keep)
    else Filter(s[1..], keep)
  }

  /** Filtering works piece by piece, so it keeps the order of what it keeps. */
  lemma {:induction false} FilterAppend(a: string, b: string, keep: char -> bool)
    ensures Filter(a + b, keep) == Filter(a, keep) + Filter(b, keep)
  {
    var s := a + b;
    if a != [] {
      assert s[0] == a[0] && s[1..] == a[1..] + b;
      FilterAppend(a[1..], b, keep);
      if keep(a[0]) {
        calc {
          Filter(s, keep);
          [a[0]] + Filter(a[1..] + b, keep);
          [a[0]] + (Filter(a[1..], keep) + Filter(b, keep));
          ([a[0]] + Filter(a[1..], keep)) + Filter(b, keep);
        }
      } else {
        assert Filter(s, keep) == Filter(a[1..] + b, keep);
      }
    } else {
      assert s == b;
    }
  }

  /** A filter that keeps every character of `s` leaves `s` as it is. */
  lemma {:induction false} FilterKeepsAll(s: string, keep: char -> bool)
    requires forall i :: 0 <= i < |s| ==> keep(s[i])
    ensures Filter(s, keep) == s
  {
    if s != [] {
      FilterKeepsAll(s[1..], keep);
      assert s == [s[0]] + s[1..];
    }
  }

  /** Two filters give the same result in either order. */
  lemma {:induction false} FilterCommutes(s: string, p: char -> bool, q: char -> bool)
    ensures Filter(Filter(s, p), q) == Filter(Filter(s, q), p)
  {
    if s != [] {
      FilterCommutes(s[1..], p, q);
      var head := [s[0]];
      assert s == head + s[1..];
      FilterAppend(head, s[1..], p);
      FilterAppend(head, s[1..], q);
      FilterAppend(Filter(head, p), Filter(s[1..], p), q);
      FilterAppend(Filter(head, q), Filter(s[1..], q), p);
      assert head[1..] == [];
    }
  }

  /** Replacing the first `c` in `a + [c] + b`, where `a` holds no `c`,
      replaces exactly that one. */
  lemma {:induction false} ReplaceFirstAt(a: string, b: string, c: char, d: char)
    requires c !in a
    ensures ReplaceFirst(a + [c] + b, c, d) == a + [d] + b
  {
    var s := a + [c] + b;
    var r := ReplaceFirst(s, c, d);
    forall i | 0 <= i < |s|
      ensures r[i] == (a + [d] + b)[i]
    {
      if i < |a| {
        assert s[i] == a[i];
        assert s[i] != c;
      } else if i > |a| {
        assert s[..i][|a|] == c;
      }
    }
  }

  /** The characters that survive the forms' clean-up filters, and the only
      ones `ParseFloat` is modelled for. */
  predicate NumericChar(c: char) {
    IsDigit(c) || c == '.' || c == ',' || c == '-' || c == '+'
  }

  /** `parseFloat(s)` on a string of digits, signs, dots and commas: an
      optional sign, then the longest prefix of the form `d*` or `d*.d*` with
      at least one digit; NaN (None) when there is no such prefix. */
  function ParseFloat(s: string): (r: Option<real>)
    requires forall i :: 0 <= i < |s| ==> NumericChar(s[i])
    ensures r.Some? ==> exists i :: 0 <= i < |s| && IsDigit(s[i])
    ensures |s| > 0 && IsDigit(s[0]) ==> r.Some? && r.value >= 0.0
  {
    var signed := |s| > 0 && (s[0] == '-' || s[0] == '+');
    var body := if signed then s[1..] else s;
    var a := LeadingDigits(body);
    var rest := body[a..];
    var frac := if |rest| > 0 && rest[0] == '.' then rest[1..][..LeadingDigits(rest[1..])] else "";
    if a == 0 && |frac| == 0 then None
    else
      assert a > 0 ==> IsDigit(s[if signed then 1 else 0]);
      assert a == 0 ==> IsDigit(s[if signed then 2 else 1]);
      var v := DigitsValue(body[..a]) as real + FractionValue(frac);
      Some(if signed && s[0] == '-' then -v else v)
  }

  /** A string of digits reads as its whole value. */
  lemma {:induction false} ParseWhole(a: string)
    requires a != [] && AllDigits(a)
    ensures ParseFloat(a) == Some(DigitsValue(a) as real)
  {
    LeadingDigitsOfDigits(a, "");
    assert a + "" == a;
    assert a[..|a|] == a;
  }

  /** A minus sign before digits reads as the negated whole value. */
  lemma {:induction false} ParseNegativeWhole(a: string)
    requires a != [] && AllDigits(a)
    ensures forall i :: 0 <= i < |"-" + a| ==> NumericChar(("-" + a)[i])
    ensures ParseFloat("-" + a) == Some(-(DigitsValue(a) as real))
  {
    var s := "-" + a;
    assert s[1..] == a;
    LeadingDigitsOfDigits(a, "");
    assert a + "" == a;
    assert a[..|a|] == a;
  }

  /** `a.b` reads as the whole part plus the fraction. */
  lemma {:induction false} ParsePointed(a: string, b: string)
    requires AllDigits(a) && AllDigits(b)
    requires a != [] || b != []
    ensures forall i :: 0 <= i < |a + "." + b| ==> NumericChar((a + "." + b)[i])
    ensures ParseFloat(a + "." + b) == Some(DigitsValue(a) as real + FractionValue(b))
  {
    var s := a + "." + b;
    assert s == a + ("." + b);
    LeadingDigitsOfDigits(a, "." + b);
    assert s[..|a|] == a;
    assert s[|a|..] == "." + b;
    assert ("." + b)[1..] == b;
    LeadingDigitsOfDigits(b, "");
    assert b + "" == b;
    assert b[..|b|] == b;
  }

  /** The characters `String.prototype.trim` removes: white space and line
      terminators. */
  predicate IsSpace(c: char) {
    c in {'\t', '\n', '\U{000B}', '\U{000C}', '\r', ' ', '\U{00A0}', '\U{1680}',
          '\U{2000}', '\U{2001}', '\U{2002}', '\U{2003}', '\U{2004}', '\U{2005}',
          '\U{2006}', '\U{2007}', '\U{2008}', '\U{2009}', '\U{200A}', '\U{2028}',
          '\U{2029}', '\U{202F}', '\U{205F}', '\U{3000}', '\U{FEFF}'}
  }

  function SpacePrefix(s: string): (n: nat)
    ensures n <= |s|
    ensures forall k :: 0 <= k < n ==> IsSpace(s[k])
    ensures n < |s| ==> !IsSpace(s[n])
  {
    if |s| == 0 || !IsSpace(s[0]) then 0 else 1 + SpacePrefix(s[1..])
  }

  function SpaceSuffix(s: string): (n: nat)
    ensures n <= |s|
    ensures forall k :: |s| - n <= k < |s| ==> IsSpace(s[k])
    ensures n < |s| ==> !IsSpace(s[|s| - n - 1])
  {
    if |s| == 0 || !IsSpace(s[|s| - 1]) then 0 else 1 + SpaceSuffix(s[..|s| - 1])
  }

  /** `s.trim()`: the slice of `s` left after removing white space from both
      ends; it is empty exactly when `s` is all white space. */
  function Trim(s: string): (r: string)
    ensures exists i, j ::
              && 0 <= i <= j <= |s| && r == s[i..j]
              && (forall k :: 0 <= k < i ==> IsSpace(s[k]))
              && (forall k :: j <= k < |s| ==> IsSpace(s[k]))
    ensures r != [] ==> !IsSpace(r[0]) && !IsSpace(r[|r| - 1])
    ensures r == [] <==> forall k :: 0 <= k < |s| ==> IsSpace(s[k])
  {
    var i := SpacePrefix(s);
    var t := s[i..];
    var j := i + |t| - SpaceSuffix(t);
    assert s[i..j] == t[..|t| - SpaceSuffix(t)];
    s[i..j]
  }
}
