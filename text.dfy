/** String operations the price tracker relies on: Python's `str.strip`,
    `str.lower`, `str.rstrip(c)`, `str.split(sep)`, substring search, the
    digit filters of its `re.sub` price cleaners, and decimal numerals. */
module Text {
  import opened Prelude

  // ---------------------------------------------------------------- digits

  predicate IsDigit(c: char) { '0' <= c <= '9' }

  function DigitValue(c: char): nat
    requires IsDigit(c)
  {
    (c as int - '0' as int) as nat
  }

  function DigitChar(d: nat): char
    requires d < 10
  {
    ('0' as int + d) as char
  }

  predicate AllDigits(s: string) { forall i :: 0 <= i < |s| ==> IsDigit(s[i]) }

  /** `re.sub(r"[^\d]", "", s)`: every character that is not a digit removed. */
  function KeepDigits(s: string): (r: string)
    ensures AllDigits(r) && |r| <= |s|
  {
    if s == [] then []
    else (if IsDigit(s[0]) then [s[0]] else []) + KeepDigits(s[1..])
  }

  lemma {:induction false} KeepDigitsAppend(a: string, b: string)
    ensures KeepDigits(a + b) == KeepDigits(a) + KeepDigits(b)
  {
    if a == [] {
      assert a + b == b;
    } else {
      var head := if IsDigit(a[0]) then [a[0]] else [];
      assert (a + b)[0] == a[0] && (a + b)[1..] == a[1..] + b;
      calc {
        KeepDigits(a + b);
        head + KeepDigits(a[1..] + b);
        { KeepDigitsAppend(a[1..], b); }
        head + (KeepDigits(a[1..]) + KeepDigits(b));
        (head + KeepDigits(a[1..])) + KeepDigits(b);
      }
    }
  }

  predicate IsDigitOrDot(c: char) { IsDigit(c) || c == '.' }

  /** `re.sub(r"[^\d.]", "", s)`: every character that is neither a digit nor '.' removed. */
  function KeepDigitsDots(s: string): (r: string)
    ensures forall i :: 0 <= i < |r| ==> IsDigitOrDot(r[i])
    ensures |r| <= |s|
  {
    if s == [] then []
    else (if IsDigitOrDot(s[0]) then [s[0]] else []) + KeepDigitsDots(s[1..])
  }

  lemma {:induction false} KeepDigitsDotsAppend(a: string, b: string)
    ensures KeepDigitsDots(a + b) == KeepDigitsDots(a) + KeepDigitsDots(b)
  {
    if a != [] {
      var head := if IsDigitOrDot(a[0]) then [a[0]] else [];
      assert (a + b)[0] == a[0] && (a + b)[1..] == a[1..] + b;
      calc {
        KeepDigitsDots(a + b);
        head + KeepDigitsDots(a[1..] + b);
        { KeepDigitsDotsAppend(a[1..], b); }
        head + (KeepDigitsDots(a[1..]) + KeepDigitsDots(b));
        (head + KeepDigitsDots(a[1..])) + KeepDigitsDots(b);
      }
    } else {
      assert a + b == b;
    }
  }

  /** Filtering a string that holds only digits and dots changes nothing. */
  lemma {:induction false} KeepDigitsDotsOfClean(s: string)
    requires forall i :: 0 <= i < |s| ==> IsDigitOrDot(s[i])
    ensures KeepDigitsDots(s) == s
  {
    if s != [] {
      KeepDigitsDotsOfClean(s[1..]);
    }
  }

  /** Without any '.', the digit-and-dot filter keeps just the digits. */
  lemma {:induction false} KeepDigitsDotsWithoutDot(s: string)
    requires forall i :: 0 <= i < |s| ==> s[i] != '.'
    ensures KeepDigitsDots(s) == KeepDigits(s)
  {
    if s != [] {
      KeepDigitsDotsWithoutDot(s[1..]);
    }
  }

  /** Value of a string of decimal digits, most significant first. */
  function DigitsValue(s: string): nat
    requires AllDigits(s)
  {
    if s == [] then 0 else DigitsValue(s[..|s| - 1]) * 10 + DigitValue(s[|s| - 1])
  }

  /** Python's `str(n)` for a natural number. */
  function NatToString(n: nat): (r: string)
    ensures AllDigits(r) && |r| >= 1
  {
    if n < 10 then [DigitChar(n)] else NatToString(n / 10) + [DigitChar(n % 10)]
  }

  /** Python's `str(n)` for an integer: a minus sign, then the digits. */
  function IntToString(n: int): string
  {
    if n < 0 then "-" + NatToString(-n) else NatToString(n)
  }

  /** Reading back what `str` printed gives the number again. */
  lemma {:induction false} NatToStringRoundTrip(n: nat)
    ensures DigitsValue(NatToString(n)) == n
  {
    var s := NatToString(n);
    if n >= 10 {
      NatToStringRoundTrip(n / 10);
      assert s[..|s| - 1] == NatToString(n / 10);
    }
  }

  /** The text of an integer keeps exactly the digits of its absolute value
      under the digit-and-dot filter (the sign is dropped). */
  lemma IntToStringCleaned(n: int)
    ensures KeepDigitsDots(IntToString(n)) == NatToString(if n < 0 then -n else n)
  {
    var digits := NatToString(if n < 0 then -n else n);
    KeepDigitsDotsOfClean(digits);
    if n < 0 {
      KeepDigitsDotsAppend("-", digits);
    }
  }

  // ---------------------------------------------------------- whitespace

  /** Python's `str.isspace` for one character. */
  predicate IsSpace(c: char)
  {
    var k := c as int;
    (9 <= k <= 13) || (28 <= k <= 32) || k == 0x85 || k == 0xA0 || k == 0x1680
    || (0x2000 <= k <= 0x200A) || k == 0x2028 || k == 0x2029 || k == 0x202F
    || k == 0x205F || k == 0x3000
  }

  function StripLeft(s: string): (r: string)
    ensures |r| <= |s|
  {
    if s != [] && IsSpace(s[0]) then StripLeft(s[1..]) else s
  }

  /** What `StripLeft` removed is whitespace, and what it kept is a suffix
      that does not start with whitespace. */
  lemma {:induction false} StripLeftShape(s: string)
    ensures StripLeft(s) == s[|s| - |StripLeft(s)|..]
    ensures StripLeft(s) != [] ==> !IsSpace(StripLeft(s)[0])
    ensures forall i :: 0 <= i < |s| - |StripLeft(s)| ==> IsSpace(s[i])
  {
    if s != [] && IsSpace(s[0]) {
      StripLeftShape(s[1..]);
    }
  }

  function StripRight(s: string): (r: string)
    ensures |r| <= |s|
  {
    if s != [] && IsSpace(s[|s| - 1]) then StripRight(s[..|s| - 1]) else s
  }

  lemma {:induction false} StripRightShape(s: string)
    ensures StripRight(s) == s[..|StripRight(s)|]
    ensures StripRight(s) != [] ==> !IsSpace(StripRight(s)[|StripRight(s)| - 1])
    ensures forall i :: |StripRight(s)| <= i < |s| ==> IsSpace(s[i])
  {
    if s != [] && IsSpace(s[|s| - 1]) {
      StripRightShape(s[..|s| - 1]);
    }
  }

  /** Python's `str.strip()` with no argument. */
  function Strip(s: string): string
  {
    StripLeft(StripRight(s))
  }

  /** `s.strip()` is empty exactly when every character of `s` is whitespace. */
  lemma StripEmptyIffBlank(s: string)
    ensures Strip(s) == [] <==> forall i :: 0 <= i < |s| ==> IsSpace(s[i])
  {
    var r := StripRight(s);
    StripRightShape(s);
    StripLeftShape(r);
    if r != [] {
      assert r[|r| - 1] == s[|r| - 1];
    }
  }

  /** Python's `s.rstrip(c)` for one character `c`. */
  function RStrip(s: string, c: char): (r: string)
    ensures |r| <= |s| && r == s[..|r|]
    ensures r != [] ==> r[|r| - 1] != c
    ensures forall i :: |r| <= i < |s| ==> s[i] == c
  {
    if s != [] && s[|s| - 1] == c then RStrip(s[..|s| - 1], c) else s
  }

  // ---------------------------------------------------------- case

  /** `str.lower()` on ASCII letters; every other character is kept. */
  function LowerAscii(s: string): (r: string)
    ensures |r| == |s|
  {
    if s == [] then []
    else [if 'A' <= s[0] <= 'Z' then (s[0] as int + 32) as char else s[0]] + LowerAscii(s[1..])
  }

  // ---------------------------------------------------------- substrings

  predicate OccursAt(s: string, sub: string, i: int)
  {
    0 <= i && i + |sub| <= |s| && s[i..i + |sub|] == sub
  }

  /** An occurrence of `sub` at `i` begins with the first two characters of
      `sub`. */
  lemma OccursAtStart(s: string, sub: string, i: int)
    requires OccursAt(s, sub, i) && |sub| >= 2
    ensures s[i] == sub[0] && s[i + 1] == sub[1]
  {
    assert s[i..i + |sub|][0] == s[i];
    assert s[i..i + |sub|][1] == s[i + 1];
  }

  /** Leftmost position at or after `from` where `sub` occurs in `s`. */
  function FindFrom(s: string, sub: string, from: nat): (r: Option<nat>)
    decreases |s| - from
    ensures r.Some? ==> from <= r.value && OccursAt(s, sub, r.value)
    ensures r.Some? ==> forall j :: from <= j < r.value ==> !OccursAt(s, sub, j)
    ensures r.None? ==> forall j :: from <= j ==> !OccursAt(s, sub, j)
  {
    if from + |sub| > |s| then None
    else if s[from..from + |sub|] == sub then Some(from)
    else FindFrom(s, sub, from + 1)
  }

  /** Python's `sub in s`. */
  predicate Contains(s: string, sub: string)
  {
    FindFrom(s, sub, 0).Some?
  }

  lemma ContainsIff(s: string, sub: string)
    ensures Contains(s, sub) <==> exists i :: OccursAt(s, sub, i)
  {
    if !Contains(s, sub) {
      forall i ensures !OccursAt(s, sub, i) {
        if 0 <= i { assert !OccursAt(s, sub, i); }
      }
    }
  }

  /** Python's `s.split(sep)[-1]` for a non-empty separator: splitting scans
      left to right for non-overlapping occurrences and this is the last piece. */
  function LastPiece(s: string, sep: string): (r: string)
    requires sep != []
    decreases |s|
    ensures |r| <= |s| && r == s[|s| - |r|..]
    ensures !Contains(r, sep)
  {
    match FindFrom(s, sep, 0)
    case None => s
    case Some(i) => LastPiece(s[i + |sep|..], sep)
  }

  /** A string in which `[c]` does not occur holds no `c`. */
  lemma NotContainedChar(s: string, c: char)
    requires !Contains(s, [c])
    ensures forall i :: 0 <= i < |s| ==> s[i] != c
  {
    forall i | 0 <= i < |s| ensures s[i] != c {
      assert s[i..i + 1] == [s[i]];
      assert !OccursAt(s, [c], i);
    }
  }

  /** With a one-character separator, the last piece is what follows the
      last occurrence of that character. */
  lemma LastPieceAfterLast(a: string, c: char, b: string)
    requires forall i :: 0 <= i < |b| ==> b[i] != c
    ensures LastPiece(a + [c] + b, [c]) == b
  {
    var s := a + [c] + b;
    assert s[|a|] == c;
    assert s[|a| + 1..] == b;
    LastPieceAfter(s, c, |a|);
  }

  lemma {:induction false} LastPieceAfter(s: string, c: char, m: nat)
    requires m < |s| && s[m] == c
    requires forall i :: m < i < |s| ==> s[i] != c
    ensures LastPiece(s, [c]) == s[m + 1..]
    decreases |s|
  {
    assert OccursAt(s, [c], m) by {
      assert s[m..m + 1] == [c];
    }
    var k := FindFrom(s, [c], 0).value;
    assert k <= m;
    assert s[k] == c by {
      assert s[k..k + 1] == [c];
    }
    var rest := s[k + 1..];
    assert LastPiece(s, [c]) == LastPiece(rest, [c]);
    if k == m {
      NoCharNotFound(rest, c);
      assert LastPiece(rest, [c]) == rest;
    } else {
      assert rest[m - k - 1] == c;
      assert rest[m - k..] == s[m + 1..];
      LastPieceAfter(rest, c, m - k - 1);
    }
  }

  /** Without `c`, `[c]` is not found. */
  lemma NoCharNotFound(s: string, c: char)
    requires forall i :: 0 <= i < |s| ==> s[i] != c
    ensures FindFrom(s, [c], 0).None?
  {
    forall j | 0 <= j ensures !OccursAt(s, [c], j) {
      if j + 1 <= |s| {
        assert s[j..j + 1] == [s[j]];
      }
    }
  }

  /** Python's `s.split(c)[0]` for a one-character separator. */
  function FirstPiece(s: string, c: char): (r: string)
    ensures |r| <= |s| && r == s[..|r|]
    ensures forall i :: 0 <= i < |r| ==> r[i] != c
    ensures |r| < |s| ==> s[|r|] == c
  {
    if s == [] || s[0] == c then [] else [s[0]] + FirstPiece(s[1..], c)
  }
}
