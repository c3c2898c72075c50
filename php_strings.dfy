/**
 * The PHP 7 string built-ins the modelled code calls: `strpos`, `substr`,
 * `str_replace`, `explode`, `implode`, `is_numeric`, and integer-to-string
 * conversion. Where PHP 7 returns FALSE instead of a string (`substr` past the
 * end) the model returns the empty string: every caller here only concatenates,
 * compares or re-parses the result, and FALSE behaves as "" in all of those.
 * Where `strpos` returns FALSE and the caller does arithmetic with it, FALSE
 * counts as 0; `StrposOrZero` gives that number.
 */
module PhpStrings {
  import opened PhpValues

  /** `strpos($s, $prefix) === 0` for a non-empty needle is a prefix test. */
  predicate StartsWith(s: string, prefix: string) {
    |prefix| <= |s| && s[..|prefix|] == prefix
  }

  /** `strpos($h, $c, $from)`: the first position at or after `from` holding `c`. */
  function FindFrom(h: string, c: char, from: nat): (r: Option<nat>)
    ensures r.Some? ==> from <= r.value < |h| && h[r.value] == c
    ensures r.Some? ==> forall j :: from <= j < r.value ==> h[j] != c
    ensures r.None? ==> forall j :: from <= j < |h| ==> h[j] != c
    decreases |h| - from
  {
    if from >= |h| then None
    else if h[from] == c then Some(from)
    else FindFrom(h, c, from + 1)
  }

  /** `strpos($h, $c, $offset)` used as a number: FALSE is 0. */
  function StrposOrZero(h: string, c: char, offset: nat): nat {
    match FindFrom(h, c, offset)
    case None => 0
    case Some(i) => i
  }

  function Min(a: int, b: int): int { if a < b then a else b }

  /**
   * `substr($s, $start, $length)` as PHP 7 computes it, with FALSE read as "".
   * A negative length stops that many characters before the end.
   */
  function Substr(s: string, start: int, length: Option<int>): (r: string)
    ensures |r| <= |s|
  {
    var from := if start >= 0 then start else if |s| + start >= 0 then |s| + start else 0;
    if from > |s| then ""
    else
      match length
      case None => s[from..]
      case Some(n) =>
        if n >= 0 then s[from..Min(from + n, |s|)]
        else if |s| + n >= from then s[from..|s| + n]
        else ""
  }

  /** `str_replace($needle, $rep, $s)`: every occurrence, left to right, non-overlapping. */
  function StrReplace(s: string, needle: string, rep: string): string
    decreases |s|
  {
    if needle == [] || s == [] then s
    else if StartsWith(s, needle) then rep + StrReplace(s[|needle|..], needle, rep)
    else [s[0]] + StrReplace(s[1..], needle, rep)
  }

  /** `explode($d, $s)`: the pieces between the delimiters, always at least one. */
  function Explode(s: string, d: char): (r: seq<string>)
    ensures |r| >= 1
    ensures forall i :: 0 <= i < |r| ==> d !in r[i]
  {
    if s == [] then [""]
    else
      var rest := Explode(s[1..], d);
      if s[0] == d then [""] + rest
      else [[s[0]] + rest[0]] + rest[1..]
  }

  /** `implode($d, $parts)`. */
  function Implode(parts: seq<string>, d: string): string {
    if parts == [] then ""
    else if |parts| == 1 then parts[0]
    else parts[0] + d + Implode(parts[1..], d)
  }

  /** Exploding and imploding on the same delimiter gives the string back. */
  lemma {:induction false} ImplodeExplode(s: string, d: char)
    ensures Implode(Explode(s, d), [d]) == s
  {
    if s != [] {
      var rest := Explode(s[1..], d);
      ImplodeExplode(s[1..], d);
      if s[0] == d {
        assert ([""] + rest)[1..] == rest;
      } else {
        var parts := [[s[0]] + rest[0]] + rest[1..];
        assert parts[1..] == rest[1..];
        if |rest| > 1 {
          assert rest == [rest[0]] + rest[1..];
        }
      }
    }
  }

  /** Explode undoes implode when no piece contains the delimiter. */
  lemma {:induction false} ExplodeImplode(parts: seq<string>, d: char)
    requires |parts| >= 1
    requires forall i :: 0 <= i < |parts| ==> d !in parts[i]
    ensures Explode(Implode(parts, [d]), d) == parts
    decreases |parts|
  {
    if |parts| == 1 {
      ExplodeNoDelimiter(parts[0], d);
    } else {
      ExplodeImplode(parts[1..], d);
      ExplodeConcat(parts[0], d, Implode(parts[1..], [d]));
      assert parts == [parts[0]] + parts[1..];
      assert parts[0] + [d] + Implode(parts[1..], [d]) == parts[0] + ([d] + Implode(parts[1..], [d]));
    }
  }

  lemma {:induction false} ExplodeNoDelimiter(s: string, d: char)
    requires d !in s
    ensures Explode(s, d) == [s]
  {
    if s != [] {
      assert d !in s[1..] by {
        assert forall i :: 0 <= i < |s[1..]| ==> s[1..][i] == s[i + 1];
      }
      ExplodeNoDelimiter(s[1..], d);
      assert [s[0]] + s[1..] == s;
    }
  }

  lemma {:induction false} ExplodeConcat(a: string, d: char, b: string)
    requires d !in a
    ensures Explode(a + ([d] + b), d) == [a] + Explode(b, d)
  {
    if a == [] {
      assert a + ([d] + b) == [d] + b;
      assert ([d] + b)[1..] == b;
    } else {
      assert d !in a[1..] by {
        assert forall i :: 0 <= i < |a[1..]| ==> a[1..][i] == a[i + 1];
      }
      ExplodeConcat(a[1..], d, b);
      assert (a + ([d] + b))[1..] == a[1..] + ([d] + b);
      assert [a[0]] + a[1..] == a;
    }
  }

  // ---------------------------------------------------------------------
  // `is_numeric` on a string, as PHP 7 decides it: optional leading
  // whitespace, an optional sign, a decimal mantissa with at least one
  // digit, an optional exponent, and nothing after.

  function SkipSpace(s: string): (r: string)
    ensures |r| <= |s|
  {
    if s != [] && IsSpace(s[0]) then SkipSpace(s[1..]) else s
  }

  function SkipDigits(s: string): (r: string)
    ensures |r| <= |s|
  {
    if s != [] && IsDigit(s[0]) then SkipDigits(s[1..]) else s
  }

  function SkipSign(s: string): (r: string) {
    if s != [] && (s[0] == '+' || s[0] == '-') then s[1..] else s
  }

  /** The rest of `s` after a mantissa, or None when `s` does not start with one. */
  function Mantissa(s: string): Option<string> {
    var afterInt := SkipDigits(s);
    var intDigits := |s| - |afterInt|;
    if afterInt != [] && afterInt[0] == '.' then
      var afterFrac := SkipDigits(afterInt[1..]);
      var fracDigits := |afterInt| - 1 - |afterFrac|;
      if intDigits + fracDigits > 0 then Some(afterFrac) else None
    else if intDigits > 0 then Some(afterInt)
    else None
  }

  /** The rest of `s` after an optional exponent; None when an exponent is malformed. */
  function Exponent(s: string): Option<string> {
    if s != [] && (s[0] == 'e' || s[0] == 'E') then
      var signless := SkipSign(s[1..]);
      var after := SkipDigits(signless);
      if |after| < |signless| then Some(after) else None
    else Some(s)
  }

  predicate IsNumeric(s: string) {
    match Mantissa(SkipSign(SkipSpace(s)))
    case None => false
    case Some(rest) => Exponent(rest) == Some("")
  }

  /** A non-empty run of digits is numeric. */
  lemma {:induction false} DigitsAreNumeric(s: string)
    requires s != [] && forall i :: 0 <= i < |s| ==> IsDigit(s[i])
    ensures IsNumeric(s)
  {
    AllDigitsSkipped(s);
  }

  lemma {:induction false} AllDigitsSkipped(s: string)
    requires forall i :: 0 <= i < |s| ==> IsDigit(s[i])
    ensures SkipDigits(s) == ""
  {
    if s != [] {
      assert forall i :: 0 <= i < |s[1..]| ==> s[1..][i] == s[i + 1];
      AllDigitsSkipped(s[1..]);
    }
  }

  // ---------------------------------------------------------------------
  // Integer to decimal string, as PHP's string conversion writes it.

  function DigitChar(d: int): char
    requires 0 <= d < 10
  {
    "0123456789"[d]
  }

  function NatToString(n: nat): (r: string)
    ensures |r| >= 1
    ensures forall i :: 0 <= i < |r| ==> IsDigit(r[i])
  {
    if n < 10 then [DigitChar(n)] else NatToString(n / 10) + [DigitChar(n % 10)]
  }

  function IntToString(n: int): string {
    if n >= 0 then NatToString(n) else "-" + NatToString(-n)
  }
}
