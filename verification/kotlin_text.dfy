/**
 * The few Kotlin standard-library string operations the app relies on:
 * `isBlank`, `trim`, `uppercase`, `Long.toString` and string templates
 * over nullable values.
 */
module KotlinText {
  import opened Nullable

  // ---------------------------------------------------------------------
  // Whitespace, isBlank and trim
  // ---------------------------------------------------------------------

  /** `Char.isWhitespace()` on the JVM: `Character.isWhitespace` or `Character.isSpaceChar`. */
  predicate IsWhitespace(c: char) {
    || c == ' ' || c == '\t' || c == '\n' || c == '\r'
    || c == '\U{B}' || c == '\U{C}'
    || ('\U{1C}' <= c <= '\U{1F}')
    || c == '\U{A0}' || c == '\U{1680}'
    || ('\U{2000}' <= c <= '\U{200A}')
    || c == '\U{2028}' || c == '\U{2029}' || c == '\U{202F}' || c == '\U{205F}' || c == '\U{3000}'
  }

  /** `String.isBlank()`: empty, or whitespace only. */
  predicate IsBlank(s: string) {
    forall i :: 0 <= i < |s| ==> IsWhitespace(s[i])
  }

  /** Drops the leading whitespace. */
  function TrimStart(s: string): (r: string)
    ensures |r| <= |s| && r == s[|s| - |r|..]
    ensures forall i :: 0 <= i < |s| - |r| ==> IsWhitespace(s[i])
    ensures r == [] || !IsWhitespace(r[0])
  {
    if s == [] || !IsWhitespace(s[0]) then s else TrimStart(s[1..])
  }

  /** Drops the trailing whitespace. */
  function TrimEnd(s: string): (r: string)
    ensures |r| <= |s| && r == s[..|r|]
    ensures forall i :: |r| <= i < |s| ==> IsWhitespace(s[i])
    ensures r == [] || !IsWhitespace(r[|r| - 1])
  {
    if s == [] || !IsWhitespace(s[|s| - 1]) then s else TrimEnd(s[..|s| - 1])
  }

  /** `String.trim()`: the longest slice without whitespace at either end. */
  function Trim(s: string): (r: string)
    ensures exists i, j :: 0 <= i <= j <= |s| && r == s[i..j]
                           && IsBlank(s[..i]) && IsBlank(s[j..])
    ensures r == [] || (!IsWhitespace(r[0]) && !IsWhitespace(r[|r| - 1]))
  {
    var front := TrimStart(s);
    var r := TrimEnd(front);
    var i := |s| - |front|;
    assert r == s[i..i + |r|];
    assert IsBlank(s[..i]);
    assert IsBlank(s[i + |r|..]) by {
      forall k | i + |r| <= k < |s|
        ensures IsWhitespace(s[k])
      {
        assert s[k] == front[k - i];
      }
    }
    r
  }

  /** A string is blank exactly when trimming leaves nothing. */
  lemma BlankIffTrimEmpty(s: string)
    ensures IsBlank(s) <==> Trim(s) == []
  {
    if Trim(s) == [] {
      var i, j :| 0 <= i <= j <= |s| && Trim(s) == s[i..j] && IsBlank(s[..i]) && IsBlank(s[j..]);
      forall k | 0 <= k < |s|
        ensures IsWhitespace(s[k])
      {
        if k < i {
          assert s[..i][k] == s[k];
        } else {
          assert s[j..][k - j] == s[k];
        }
      }
    }
  }

  /** Trimming an already trimmed string changes nothing. */
  lemma TrimIdempotent(s: string)
    ensures Trim(Trim(s)) == Trim(s)
  {
    var t := Trim(s);
    assert TrimStart(t) == t;
    assert TrimEnd(t) == t;
  }

  // ---------------------------------------------------------------------
  // uppercase
  // ---------------------------------------------------------------------

  /**
   * Upper-case form of one character under `String.uppercase()`
   * (Locale.ROOT). ASCII letters are mapped, and so is every non-ASCII
   * character whose upper-case form is made of ASCII letters only
   * (dotless i, long s, sharp s and the Latin ligatures, some of which
   * expand to several characters). Other characters are kept as they are;
   * their true upper-case forms are not ASCII either.
   */
  function UpperChar(c: char): (r: string)
    ensures |r| >= 1
  {
    if 'a' <= c <= 'z' then [(c as int - 32) as char]
    else if c == '\U{131}' then "I"
    else if c == '\U{17F}' then "S"
    else if c == '\U{DF}' then "SS"
    else if c == '\U{FB00}' then "FF"
    else if c == '\U{FB01}' then "FI"
    else if c == '\U{FB02}' then "FL"
    else if c == '\U{FB03}' then "FFI"
    else if c == '\U{FB04}' then "FFL"
    else if c == '\U{FB05}' || c == '\U{FB06}' then "ST"
    else [c]
  }

  /** `String.uppercase()`, character by character. */
  function Uppercase(s: string): (r: string)
    ensures |r| >= |s|
  {
    if s == [] then [] else UpperChar(s[0]) + Uppercase(s[1..])
  }

  /** Upper-casing distributes over concatenation. */
  lemma {:induction false} UppercaseAppend(a: string, b: string)
    ensures Uppercase(a + b) == Uppercase(a) + Uppercase(b)
  {
    if a == [] {
      assert a + b == b;
    } else {
      assert (a + b)[0] == a[0];
      assert (a + b)[1..] == a[1..] + b;
      UppercaseAppend(a[1..], b);
      calc {
        Uppercase(a + b);
        UpperChar(a[0]) + Uppercase(a[1..] + b);
        UpperChar(a[0]) + (Uppercase(a[1..]) + Uppercase(b));
        (UpperChar(a[0]) + Uppercase(a[1..])) + Uppercase(b);
      }
    }
  }

  /** A string of capital ASCII letters is its own upper-case form. */
  lemma {:induction false} UppercaseKeepsCapitals(s: string)
    requires forall i :: 0 <= i < |s| ==> 'A' <= s[i] <= 'Z'
    ensures Uppercase(s) == s
  {
    if s != [] {
      UppercaseKeepsCapitals(s[1..]);
      assert s == [s[0]] + s[1..];
    }
  }

  /** Every character `UpperChar` produces is its own upper-case form. */
  lemma UpperCharFixed(c: char)
    ensures Uppercase(UpperChar(c)) == UpperChar(c)
  {
    var u := UpperChar(c);
    if |u| == 1 {
      assert Uppercase(u) == UpperChar(u[0]) + Uppercase([]);
    } else if |u| == 2 {
      assert Uppercase(u) == UpperChar(u[0]) + Uppercase(u[1..]);
      assert Uppercase(u[1..]) == UpperChar(u[1]) + Uppercase([]);
    } else {
      assert Uppercase(u) == UpperChar(u[0]) + Uppercase(u[1..]);
      assert Uppercase(u[1..]) == UpperChar(u[1]) + Uppercase(u[2..]);
      assert Uppercase(u[2..]) == UpperChar(u[2]) + Uppercase([]);
    }
  }

  /** `uppercase` is idempotent: `s.uppercase().uppercase() == s.uppercase()`. */
  lemma {:induction false} UppercaseIdempotent(s: string)
    ensures Uppercase(Uppercase(s)) == Uppercase(s)
  {
    if s != [] {
      UppercaseAppend(UpperChar(s[0]), Uppercase(s[1..]));
      UpperCharFixed(s[0]);
      UppercaseIdempotent(s[1..]);
    }
  }

  // ---------------------------------------------------------------------
  // Decimal rendering of Long (string templates "$id") and its inverse
  // ---------------------------------------------------------------------

  predicate IsDigit(c: char) {
    '0' <= c <= '9'
  }

  predicate AllDigits(s: string) {
    forall i :: 0 <= i < |s| ==> IsDigit(s[i])
  }

  function DigitChar(d: int): (c: char)
    requires 0 <= d < 10
    ensures IsDigit(c) && c as int - '0' as int == d
  {
    ('0' as int + d) as char
  }

  /** Base-10 digits of a non-negative number, without leading zeros. */
  function NatDecimal(n: nat): (s: string)
    ensures |s| >= 1 && AllDigits(s)
    ensures s[0] == '0' ==> n == 0
  {
    if n < 10 then [DigitChar(n)] else NatDecimal(n / 10) + [DigitChar(n % 10)]
  }

  /** The value of a string of decimal digits. */
  function ParseNat(s: string): nat
    requires AllDigits(s)
  {
    if s == [] then 0 else ParseNat(s[..|s| - 1]) * 10 + (s[|s| - 1] as int - '0' as int)
  }

  lemma {:induction false} ParseNatDecimal(n: nat)
    ensures ParseNat(NatDecimal(n)) == n
  {
    if n >= 10 {
      var s := NatDecimal(n);
      assert s[..|s| - 1] == NatDecimal(n / 10);
      ParseNatDecimal(n / 10);
    }
  }

  /** `Long.toString()`: an optional minus sign, then the digits. */
  function Decimal(n: int): (s: string)
    ensures |s| >= 1 && s[0] != ' '
    ensures forall i :: 0 <= i < |s| ==> s[i] != ' ' && s[i] != '{'
    ensures n >= 0 <==> IsDigit(s[0])
  {
    if n < 0 then "-" + NatDecimal(-n) else NatDecimal(n)
  }

  /** Reads back what `Decimal` writes; `None` for anything else. */
  function ParseDecimal(s: string): Option<int> {
    if |s| >= 2 && s[0] == '-' && AllDigits(s[1..]) then var m: int := ParseNat(s[1..]); Some(-m)
    else if |s| >= 1 && AllDigits(s) then Some(ParseNat(s))
    else None
  }

  /** Rendering then parsing an integer gives it back. */
  lemma DecimalRoundTrip(n: int)
    ensures ParseDecimal(Decimal(n)) == Some(n)
  {
    if n < 0 {
      var s := Decimal(n);
      assert s[1..] == NatDecimal(-n);
      ParseNatDecimal(-n);
    } else {
      ParseNatDecimal(n);
    }
  }

  /** Distinct integers render differently. */
  lemma DecimalInjective(a: int, b: int)
    ensures Decimal(a) == Decimal(b) <==> a == b
  {
    DecimalRoundTrip(a);
    DecimalRoundTrip(b);
  }

  /** String template over a nullable value: `"${x}"` renders `null` as "null". */
  function Interpolate(x: Option<string>): (r: string)
    ensures x.Some? ==> r == x.value
    ensures x.None? ==> r == "null"
  {
    x.GetOr("null")
  }
}
