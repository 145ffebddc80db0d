/**
 * The JavaScript String operations the fan club app relies on:
 * `trim`, `toLowerCase`/`toUpperCase` (ASCII letters only),
 * `includes`, `split` on one separator character, and the decimal
 * text of a number (as in `'fanclub_' + Date.now()`).
 */
module JsString {

  /** The characters `String.prototype.trim` removes: ECMAScript WhiteSpace
      (tab, vertical tab, form feed, space, no-break space, BOM and the Zs
      category) and LineTerminator (LF, CR, LS, PS). */
  predicate IsJsWhitespace(c: char) {
    c as int in WhitespaceCodes
  }

  const WhitespaceCodes: set<int> :=
    {0x09, 0x0A, 0x0B, 0x0C, 0x0D, 0x20, 0xA0, 0x1680,
     0x2000, 0x2001, 0x2002, 0x2003, 0x2004, 0x2005, 0x2006, 0x2007, 0x2008, 0x2009, 0x200A,
     0x2028, 0x2029, 0x202F, 0x205F, 0x3000, 0xFEFF}

  /** Every character of `s[lo..hi]` is whitespace. */
  predicate WhitespaceBetween(s: string, lo: int, hi: int) {
    forall k :: lo <= k < hi && 0 <= k < |s| ==> IsJsWhitespace(s[k])
  }

  predicate AllWhitespace(s: string) {
    WhitespaceBetween(s, 0, |s|)
  }

  /** Where `s[lo..hi]` stops being whitespace from the left: the end of
      the leading whitespace. */
  function TrimLeft(s: string, lo: nat, hi: nat): (i: nat)
    requires lo <= hi <= |s|
    ensures lo <= i <= hi && WhitespaceBetween(s, lo, i)
    ensures i == hi || !IsJsWhitespace(s[i])
    decreases hi - lo
  {
    if lo < hi && IsJsWhitespace(s[lo]) then TrimLeft(s, lo + 1, hi) else lo
  }

  /** Where `s[lo..hi]` stops being whitespace from the right: the start
      of the trailing whitespace. */
  function TrimRight(s: string, lo: nat, hi: nat): (j: nat)
    requires lo <= hi <= |s|
    ensures lo <= j <= hi && WhitespaceBetween(s, j, hi)
    ensures j == lo || !IsJsWhitespace(s[j - 1])
    decreases hi - lo
  {
    if lo < hi && IsJsWhitespace(s[hi - 1]) then TrimRight(s, lo, hi - 1) else hi
  }

  /** `r` is `s` with the whitespace-only prefix `s[..i]` and the
      whitespace-only suffix after it removed. */
  predicate TrimmedAt(s: string, r: string, i: int) {
    0 <= i <= |s| - |r| && s[i..i + |r|] == r &&
    WhitespaceBetween(s, 0, i) && WhitespaceBetween(s, i + |r|, |s|)
  }

  /** `s.trim()`: the part of `s` between its leading and its trailing
      whitespace; it neither starts nor ends with whitespace. */
  function Trim(s: string): (r: string)
    ensures |r| <= |s|
    ensures exists i :: TrimmedAt(s, r, i)
    ensures r == [] || (!IsJsWhitespace(r[0]) && !IsJsWhitespace(r[|r| - 1]))
  {
    var i := TrimLeft(s, 0, |s|);
    var j := TrimRight(s, i, |s|);
    assert TrimmedAt(s, s[i..j], i);
    s[i..j]
  }

  /** Trimming is idempotent: `s.trim().trim() == s.trim()`. */
  lemma TrimIdempotent(s: string)
    ensures Trim(Trim(s)) == Trim(s)
  {
    var r := Trim(s);
    assert TrimLeft(r, 0, |r|) == 0;
    assert TrimRight(r, 0, |r|) == |r|;
    assert r[0..|r|] == r;
  }

  /** A trimmed string is empty exactly when the input is all whitespace:
      this is the `if (!query)` test after `trim()`. */
  lemma TrimEmptyIff(s: string)
    ensures Trim(s) == [] <==> AllWhitespace(s)
  {
    var i := TrimLeft(s, 0, |s|);
    if AllWhitespace(s) {
      assert i == |s|;
    }
  }

  function LowerChar(c: char): char {
    if 'A' <= c <= 'Z' then (c as int + 32) as char else c
  }

  function UpperChar(c: char): char {
    if 'a' <= c <= 'z' then (c as int - 32) as char else c
  }

  /** `s.toLowerCase()` restricted to ASCII letters. */
  function Lower(s: string): (r: string)
    ensures |r| == |s|
    ensures forall k :: 0 <= k < |s| ==> r[k] == LowerChar(s[k])
  {
    seq(|s|, k requires 0 <= k < |s| => LowerChar(s[k]))
  }

  /** Lower-casing twice is lower-casing once, so comparing lower-cased
      text against a lower-cased query is stable. */
  lemma LowerIdempotent(s: string)
    ensures Lower(Lower(s)) == Lower(s)
  {
  }

  /** `sub` occurs in `s` starting at index `i`. */
  predicate OccursAt(s: string, sub: string, i: int) {
    0 <= i <= |s| - |sub| && s[i..i + |sub|] == sub
  }

  /** `s.includes(sub)`, by scanning the start positions from the left. */
  function Includes(s: string, sub: string): bool
    decreases |s|
  {
    if sub <= s then true
    else if |s| == 0 then false
    else Includes(s[1..], sub)
  }

  /** An occurrence at index 0 is a prefix. */
  lemma OccursAtStart(s: string, sub: string)
    ensures OccursAt(s, sub, 0) <==> sub <= s
  {
    if |sub| <= |s| {
      assert s[0..|sub|] == s[..|sub|];
    }
  }

  /** An occurrence at index `i + 1` of `s` is one at `i` of `s[1..]`. */
  lemma OccursAtShift(s: string, sub: string, i: int)
    requires |s| > 0 && i >= 0
    ensures OccursAt(s, sub, i + 1) <==> OccursAt(s[1..], sub, i)
  {
    if i + 1 <= |s| - |sub| {
      assert s[i + 1..i + 1 + |sub|] == s[1..][i..i + |sub|];
    }
  }

  /** `includes` holds exactly when `sub` occurs at some position of `s`. */
  lemma {:induction false} IncludesIff(s: string, sub: string)
    ensures Includes(s, sub) <==> exists i :: OccursAt(s, sub, i)
    decreases |s|
  {
    OccursAtStart(s, sub);
    if sub <= s {
    } else if |s| == 0 {
    } else {
      IncludesIff(s[1..], sub);
      if Includes(s[1..], sub) {
        var i :| OccursAt(s[1..], sub, i);
        OccursAtShift(s, sub, i);
      } else {
        forall i | OccursAt(s, sub, i) ensures false {
          OccursAtShift(s, sub, i - 1);
        }
      }
    }
  }

  /** The empty string is included in every string (so an empty query,
      were it not rejected first, would match every club). */
  lemma IncludesEmpty(s: string)
    ensures Includes(s, "")
  {
  }

  /** `s.split(sep)`: the pieces between occurrences of `sep`; never empty. */
  function Split(s: string, sep: char): (parts: seq<string>)
    ensures |parts| >= 1
    ensures forall k :: 0 <= k < |parts| ==> sep !in parts[k]
    decreases |s|
  {
    if |s| == 0 then [""]
    else if s[0] == sep then [""] + Split(s[1..], sep)
    else
      var rest := Split(s[1..], sep);
      [[s[0]] + rest[0]] + rest[1..]
  }

  /** `parts.join(sep)`. */
  function Join(parts: seq<string>, sep: char): string
    requires |parts| >= 1
    decreases |parts|
  {
    if |parts| == 1 then parts[0] else parts[0] + [sep] + Join(parts[1..], sep)
  }

  /** Splitting loses nothing: joining the pieces gives the string back. */
  lemma {:induction false} JoinSplit(s: string, sep: char)
    ensures Join(Split(s, sep), sep) == s
    decreases |s|
  {
    if |s| == 0 {
    } else if s[0] == sep {
      JoinSplit(s[1..], sep);
      assert Split(s, sep)[1..] == Split(s[1..], sep);
    } else {
      var rest := Split(s[1..], sep);
      JoinSplit(s[1..], sep);
      assert Split(s, sep)[1..] == rest[1..];
      if |rest| > 1 {
        assert rest == [rest[0]] + rest[1..];
      }
    }
  }

  /** A piece free of the separator followed by the separator splits off
      as the first part. */
  lemma {:induction false} SplitAfterPiece(a: string, rest: string, sep: char)
    requires sep !in a
    ensures Split(a + [sep] + rest, sep) == [a] + Split(rest, sep)
    decreases |a|
  {
    if |a| == 0 {
      assert a + [sep] + rest == [sep] + rest;
      assert ([sep] + rest)[1..] == rest;
    } else {
      var s := a + [sep] + rest;
      assert s[0] == a[0] && s[1..] == a[1..] + [sep] + rest;
      SplitAfterPiece(a[1..], rest, sep);
      assert [a[0]] + a[1..] == a;
    }
  }

  /** A string free of the separator splits into itself. */
  lemma {:induction false} SplitPiece(a: string, sep: char)
    requires sep !in a
    ensures Split(a, sep) == [a]
    decreases |a|
  {
    if |a| > 0 {
      SplitPiece(a[1..], sep);
      assert [a[0]] + a[1..] == a;
    }
  }

  /** Splitting undoes joining pieces that do not contain the separator. */
  lemma {:induction false} SplitJoin(parts: seq<string>, sep: char)
    requires |parts| >= 1
    requires forall k :: 0 <= k < |parts| ==> sep !in parts[k]
    ensures Split(Join(parts, sep), sep) == parts
    decreases |parts|
  {
    if |parts| == 1 {
      SplitPiece(parts[0], sep);
    } else {
      SplitJoin(parts[1..], sep);
      SplitAfterPiece(parts[0], Join(parts[1..], sep), sep);
      assert [parts[0]] + parts[1..] == parts;
    }
  }

  function DigitChar(d: nat): char
    requires d < 10
  {
    ('0' as int + d) as char
  }

  /** The decimal text of a natural number, as `String(n)` writes it. */
  function Decimal(n: nat): (r: string)
    ensures |r| >= 1
    ensures forall k :: 0 <= k < |r| ==> '0' <= r[k] <= '9'
    ensures n >= 10 ==> r[0] != '0'
  {
    if n < 10 then [DigitChar(n)] else Decimal(n / 10) + [DigitChar(n % 10)]
  }

  /** Reading the digits back gives the number: the decimal text is
      faithful, so distinct timestamps give distinct ids. */
  function DigitsValue(s: string): nat
    requires forall k :: 0 <= k < |s| ==> '0' <= s[k] <= '9'
  {
    if |s| == 0 then 0 else DigitsValue(s[..|s| - 1]) * 10 + (s[|s| - 1] as int - '0' as int)
  }

  lemma {:induction false} DecimalRoundTrip(n: nat)
    ensures DigitsValue(Decimal(n)) == n
  {
    if n >= 10 {
      DecimalRoundTrip(n / 10);
      var r := Decimal(n);
      assert r[..|r| - 1] == Decimal(n / 10);
    }
  }

  lemma DecimalInjective(m: nat, n: nat)
    requires Decimal(m) == Decimal(n)
    ensures m == n
  {
    DecimalRoundTrip(m);
    DecimalRoundTrip(n);
  }

  /** `s.charAt(0).toUpperCase() + s.slice(1)` for ASCII letters. */
  function Capitalize(s: string): (r: string)
    ensures |r| == |s|
    ensures |s| > 0 ==> r[0] == UpperChar(s[0]) && r[1..] == s[1..]
  {
    if |s| == 0 then "" else [UpperChar(s[0])] + s[1..]
  }
}
