/** Shared vocabulary: failure-carrying results, Java's 32-bit int, and the few
    java.lang.String / commons-lang operations the grid code relies on. */
module Common {

  datatype Option<+T> = None | Some(value: T)

  datatype Result<+T, +E> = Ok(value: T) | Err(error: E)

  datatype Outcome<+E> = Pass | Fail(error: E)

  /** A Java `int`. */
  newtype Int32 = x: int | -0x8000_0000 <= x < 0x8000_0000

  /** `order` visits every element of `keys` exactly once: the iteration order of a
      hash table's key set, which Java leaves unspecified. */
  ghost predicate Enumerates<T(!new)>(order: seq<T>, keys: set<T>)
  {
    (forall k :: k in order <==> k in keys) &&
    (forall i, j :: 0 <= i < j < |order| ==> order[i] != order[j])
  }

  /** Some enumeration of a finite set. */
  ghost function Enumeration<T(!new)>(s: set<T>): (order: seq<T>)
    ensures Enumerates(order, s)
    decreases |s|
  {
    if s == {} then []
    else
      var x :| x in s;
      [x] + Enumeration(s - {x})
  }

  // ---------------------------------------------------------------------------
  // Characters

  predicate IsAsciiDigit(c: char) { '0' <= c <= '9' }

  predicate IsAsciiUpper(c: char) { 'A' <= c <= 'Z' }

  predicate IsAsciiLower(c: char) { 'a' <= c <= 'z' }

  /** Character.toUpperCase restricted to the characters whose upper case is an
      ASCII letter: the ASCII lower-case letters, dotless i and long s. */
  function UpperChar(c: char): (u: char)
    ensures IsAsciiLower(c) ==> IsAsciiUpper(u)
    ensures !IsAsciiLower(c) && c != '\U{131}' && c != '\U{17F}' ==> u == c
  {
    if IsAsciiLower(c) then (c as int - 32) as char
    else if c == '\U{131}' then 'I'
    else if c == '\U{17F}' then 'S'
    else c
  }

  /** Character.toLowerCase restricted to the characters whose lower case is an
      ASCII letter: the ASCII upper-case letters, dotted capital I and the Kelvin sign. */
  function LowerChar(c: char): (l: char)
    ensures IsAsciiUpper(c) ==> IsAsciiLower(l)
    ensures !IsAsciiUpper(c) && c != '\U{130}' && c != '\U{212A}' ==> l == c
  {
    if IsAsciiUpper(c) then (c as int + 32) as char
    else if c == '\U{130}' then 'i'
    else if c == '\U{212A}' then 'k'
    else c
  }

  /** The per-character test of String.equalsIgnoreCase. */
  predicate CharEqualsIgnoreCase(a: char, b: char)
  {
    a == b || UpperChar(a) == UpperChar(b) || LowerChar(UpperChar(a)) == LowerChar(UpperChar(b))
  }

  /** Equality ignoring case is equality of the lower-cased upper case. */
  lemma CharEqualsIgnoreCaseIsFolding(a: char, b: char)
    ensures CharEqualsIgnoreCase(a, b) <==> LowerChar(UpperChar(a)) == LowerChar(UpperChar(b))
  {
  }

  /** Changing the case of a character keeps it equal ignoring case; a character up to
      U+0020 is equal ignoring case only to itself. */
  lemma CaseChangeEqualsIgnoringCase(c: char)
    ensures CharEqualsIgnoreCase(UpperChar(c), c) && CharEqualsIgnoreCase(LowerChar(c), c)
    ensures forall d :: c <= ' ' && CharEqualsIgnoreCase(c, d) ==> d == c
  {
  }

  /** String.equalsIgnoreCase: same length and pairwise equal ignoring case. */
  predicate EqualsIgnoreCase(s: string, t: string)
  {
    |s| == |t| && forall i :: 0 <= i < |s| ==> CharEqualsIgnoreCase(s[i], t[i])
  }

  /** What String.toLowerCase makes of one character: dotted capital I becomes "i"
      followed by the combining dot above, every other character its Character.toLowerCase. */
  function LowerString(c: char): (r: string)
    ensures c != '\U{130}' ==> r == [LowerChar(c)]
    ensures forall i :: 0 <= i < |r| ==> !IsAsciiUpper(r[i])
  {
    if c == '\U{130}' then "i\U{307}" else [LowerChar(c)]
  }

  /** String.toLowerCase(Locale.ROOT), character by character. */
  function ToLower(s: string): (r: string)
    ensures |r| >= |s|
    ensures '\U{130}' !in s ==> |r| == |s| && forall i :: 0 <= i < |s| ==> r[i] == LowerChar(s[i])
    ensures forall i :: 0 <= i < |r| ==> !IsAsciiUpper(r[i])
  {
    if s == [] then [] else LowerString(s[0]) + ToLower(s[1..])
  }

  /** String.toUpperCase on ASCII text. */
  function ToUpper(s: string): (r: string)
    ensures |r| == |s|
    ensures forall i :: 0 <= i < |s| ==> r[i] == UpperChar(s[i])
  {
    if s == [] then [] else [UpperChar(s[0])] + ToUpper(s[1..])
  }

  /** Upper-casing a string keeps it equal ignoring case; so does lower-casing one without
      a dotted capital I, whose lower case is two characters long. */
  lemma CaseChangesEqualIgnoringCase(s: string)
    ensures EqualsIgnoreCase(ToUpper(s), s)
    ensures '\U{130}' !in s ==> EqualsIgnoreCase(ToLower(s), s)
    ensures '\U{130}' in s ==> !EqualsIgnoreCase(ToLower(s), s)
  {
    forall i | 0 <= i < |s|
      ensures CharEqualsIgnoreCase(ToUpper(s)[i], s[i])
      ensures '\U{130}' !in s ==> CharEqualsIgnoreCase(ToLower(s)[i], s[i])
    {
      CaseChangeEqualsIgnoringCase(s[i]);
    }
    if '\U{130}' in s {
      DottedCapitalILengthens(s);
    }
  }

  /** Lower-casing a dotted capital I lengthens the string. */
  lemma {:induction false} DottedCapitalILengthens(s: string)
    requires '\U{130}' in s
    ensures |ToLower(s)| > |s|
  {
    if s[0] != '\U{130}' {
      assert '\U{130}' in s[1..];
      DottedCapitalILengthens(s[1..]);
    }
  }

  /** Lower-casing an ASCII word forgets an upper-casing before it. */
  lemma {:induction false} LowerOfUpper(s: string)
    requires forall i :: 0 <= i < |s| ==> IsAsciiUpper(s[i]) || IsAsciiLower(s[i])
    ensures ToLower(ToUpper(s)) == ToLower(s)
  {
    if s != [] {
      var upper := ToUpper(s);
      assert upper[1..] == ToUpper(s[1..]);
      LowerOfUpperChar(s[0]);
      assert UpperChar(s[0]) != '\U{130}';
      assert s[0] != '\U{130}';
      LowerOfUpper(s[1..]);
    }
  }

  lemma LowerOfUpperChar(c: char)
    requires IsAsciiUpper(c) || IsAsciiLower(c)
    ensures LowerChar(UpperChar(c)) == LowerChar(c)
  {
    if IsAsciiLower(c) {
      assert UpperChar(c) as int == c as int - 32;
    }
  }

  /** `s.trim().isEmpty()`: String.trim strips every character up to U+0020. */
  predicate TrimsToEmpty(s: string)
  {
    forall i :: 0 <= i < |s| ==> s[i] <= ' '
  }

  /** Character.isWhitespace: the Unicode space, line and paragraph separators except the
      three non-breaking spaces (U+00A0, U+2007, U+202F), and U+0009-U+000D, U+001C-U+001F. */
  predicate IsWhitespace(c: char)
  {
    c == ' ' || '\t' <= c <= '\r' || '\U{1C}' <= c <= '\U{1F}' ||
    c == '\U{1680}' || '\U{2000}' <= c <= '\U{2006}' || '\U{2008}' <= c <= '\U{200A}' ||
    c == '\U{2028}' || c == '\U{2029}' || c == '\U{205F}' || c == '\U{3000}'
  }

  /** StringUtils.isBlank for a non-null string: empty or whitespace only. */
  predicate IsBlank(s: string)
  {
    forall i :: 0 <= i < |s| ==> IsWhitespace(s[i])
  }

  // ---------------------------------------------------------------------------
  // Decimal text of integers

  function DigitChar(d: nat): (c: char)
    requires d < 10
    ensures IsAsciiDigit(c)
  {
    ('0' as int + d) as char
  }

  function DigitValue(c: char): (d: nat)
    requires IsAsciiDigit(c)
    ensures d < 10 && DigitChar(d) == c
  {
    c as int - '0' as int
  }

  /** The decimal digits of a natural number, most significant first. */
  function Digits(n: nat): (s: string)
    decreases n
  {
    if n < 10 then [DigitChar(n)] else Digits(n / 10) + [DigitChar(n % 10)]
  }

  predicate AllDigits(s: string)
  {
    forall i :: 0 <= i < |s| ==> IsAsciiDigit(s[i])
  }

  /** The number denoted by a non-empty run of ASCII digits. */
  function DigitsValue(s: string): nat
    requires AllDigits(s)
  {
    if s == [] then 0 else DigitsValue(s[..|s| - 1]) * 10 + DigitValue(s[|s| - 1])
  }

  /** String.valueOf(int). */
  function DecimalString(n: int): string
  {
    if n < 0 then "-" + Digits(-n) else Digits(n)
  }

  /** Integer.valueOf(String) / Integer.parseInt: an optional sign, then ASCII digits,
      and the value must fit a Java int; anything else is a NumberFormatException (None). */
  function ParseInt(s: string): (r: Option<Int32>)
    ensures r.Some? ==> |s| > 0
  {
    if |s| == 0 then None
    else
      var negative := s[0] == '-';
      var body := if s[0] == '-' || s[0] == '+' then s[1..] else s;
      if |body| == 0 || !AllDigits(body) then None
      else
        var v: int := if negative then -(DigitsValue(body) as int) else DigitsValue(body);
        if -0x8000_0000 <= v < 0x8000_0000 then Some(v as Int32) else None
  }

  lemma {:induction false} DigitsAreDigits(n: nat)
    ensures |Digits(n)| > 0 && AllDigits(Digits(n)) && DigitsValue(Digits(n)) == n
    decreases n
  {
    if n >= 10 {
      DigitsAreDigits(n / 10);
      var s := Digits(n / 10) + [DigitChar(n % 10)];
      assert s[..|s| - 1] == Digits(n / 10);
    }
  }

  /** Decimal text never starts with a sign other than '-', and its first digit is a digit. */
  lemma DecimalStringShape(n: int)
    ensures |DecimalString(n)| > 0
    ensures DecimalString(n)[0] == '-' <==> n < 0
    ensures DecimalString(n)[0] != '+'
  {
    DigitsAreDigits(if n < 0 then -n else n);
  }

  /** Parsing the decimal text of a Java int gives that int back. */
  lemma ParseDecimalRoundTrip(n: Int32)
    ensures ParseInt(DecimalString(n as int)) == Some(n)
  {
    var m: nat := if n < 0 then -(n as int) else n as int;
    DigitsAreDigits(m);
    var s := DecimalString(n as int);
    if n < 0 {
      assert s[1..] == Digits(m);
    } else {
      assert s == Digits(m);
    }
  }

  /** Text with a non-digit after the sign is rejected. */
  lemma ParseIntRejectsNonDigit(s: string, i: nat)
    requires 0 < i < |s| && !IsAsciiDigit(s[i])
    ensures ParseInt(s) == None
  {
    var body := if s[0] == '-' || s[0] == '+' then s[1..] else s;
    if s[0] == '-' || s[0] == '+' {
      assert body[i - 1] == s[i];
    } else {
      assert body[i] == s[i];
    }
  }
}
