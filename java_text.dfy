/** The parts of java.lang.String, Boolean and Integer that the harness relies on:
    `trim`, `isEmpty`, `toLowerCase`, `endsWith`, `Boolean.parseBoolean` and
    `Integer.parseInt`, with `Integer.toString` as a reference definition for
    a round trip. A Dafny `char` is one Unicode scalar value. */
module JavaText {
  import opened Wrappers

  // ---------------------------------------------------------------------------
  // String.trim() and "blank"
  // ---------------------------------------------------------------------------

  /** `String.trim` removes every leading and trailing character whose code is
      at most U+0020 (space and all control characters). */
  predicate IsTrimSpace(c: char) {
    c <= ' '
  }

  /** Drops the leading trim-spaces: the result is a suffix of `s`. */
  function TrimStart(s: string): (r: string)
    ensures |r| <= |s| && r == s[|s| - |r|..]
    ensures forall i :: 0 <= i < |s| - |r| ==> IsTrimSpace(s[i])
    ensures |r| > 0 ==> !IsTrimSpace(r[0])
  {
    if |s| > 0 && IsTrimSpace(s[0]) then TrimStart(s[1..]) else s
  }

  /** Drops the trailing trim-spaces: the result is a prefix of `s`. */
  function TrimEnd(s: string): (r: string)
    ensures |r| <= |s| && r == s[..|r|]
    ensures forall i :: |r| <= i < |s| ==> IsTrimSpace(s[i])
    ensures |r| > 0 ==> !IsTrimSpace(r[|r| - 1])
  {
    if |s| > 0 && IsTrimSpace(s[|s| - 1]) then TrimEnd(s[..|s| - 1]) else s
  }

  /** `String.trim`: neither end of the result is a trim-space (see TrimSlice
      for what was removed). */
  function Trim(s: string): (r: string)
    ensures |r| > 0 ==> !IsTrimSpace(r[0]) && !IsTrimSpace(r[|r| - 1])
  {
    TrimEnd(TrimStart(s))
  }

  /** `Trim(s)` is the infix of `s` left after removing a run of trim-spaces at
      the front and another at the back, and nothing else. */
  lemma TrimSlice(s: string)
    ensures var k := |s| - |TrimStart(s)|; var r := Trim(s);
      k + |r| <= |s| && r == s[k..k + |r|]
      && (forall i :: 0 <= i < k ==> IsTrimSpace(s[i]))
      && (forall i :: k + |r| <= i < |s| ==> IsTrimSpace(s[i]))
  {
    var t := TrimStart(s);
    var k := |s| - |t|;
    InfixOfSuffix(s, k, TrimEnd(t));
    SpacesOfSuffix(s, k, |TrimEnd(t)|);
  }

  /** A prefix of the suffix `s[k..]` is an infix of `s`. */
  lemma InfixOfSuffix(s: string, k: nat, r: string)
    requires k <= |s| && |r| <= |s| - k && r == s[k..][..|r|]
    ensures r == s[k..k + |r|]
  {
  }

  /** Trim-spaces at the end of the suffix `s[k..]` are trim-spaces of `s`. */
  lemma SpacesOfSuffix(s: string, k: nat, n: nat)
    requires k + n <= |s|
    requires forall i :: n <= i < |s[k..]| ==> IsTrimSpace(s[k..][i])
    ensures forall i :: k + n <= i < |s| ==> IsTrimSpace(s[i])
  {
    forall i | k + n <= i < |s| ensures IsTrimSpace(s[i]) {
      assert s[i] == s[k..][i - k];
    }
  }

  /** `s.trim().isEmpty()`: every character of `s` is a trim-space. */
  predicate IsBlank(s: string)
    ensures IsBlank(s) <==> forall i :: 0 <= i < |s| ==> IsTrimSpace(s[i])
  {
    TrimSlice(s);
    Trim(s) == []
  }

  /** Trimming twice is trimming once. */
  lemma TrimIdempotent(s: string)
    ensures Trim(Trim(s)) == Trim(s)
  {
    var r := Trim(s);
    if |r| > 0 {
      assert TrimStart(r) == r;
      assert TrimEnd(r) == r;
    }
  }

  /** A trimmed string that is not blank is non-empty and keeps no trim-space
      at either end. */
  lemma TrimOfNonBlank(s: string)
    requires !IsBlank(s)
    ensures Trim(s) != [] && !IsBlank(Trim(s))
  {
  }

  // ---------------------------------------------------------------------------
  // String.toLowerCase() and String.endsWith()
  // ---------------------------------------------------------------------------

  predicate IsUpperAscii(c: char) {
    'A' <= c <= 'Z'
  }

  function LowerChar(c: char): char {
    if IsUpperAscii(c) then (c as int + 32) as char else c
  }

  /** No ASCII upper-case letter occurs in `s`. */
  predicate IsLowerCase(s: string) {
    forall i :: 0 <= i < |s| ==> !IsUpperAscii(s[i])
  }

  /** `String.toLowerCase` on the ASCII letters: each of 'A'..'Z' becomes the
      corresponding lower-case letter, every other character is kept. */
  function ToLowerCase(s: string): (r: string)
    ensures |r| == |s| && IsLowerCase(r)
    ensures forall i :: 0 <= i < |s| && !IsUpperAscii(s[i]) ==> r[i] == s[i]
    ensures forall i :: 0 <= i < |s| && IsUpperAscii(s[i]) ==> r[i] as int == s[i] as int + 32
  {
    seq(|s|, i requires 0 <= i < |s| => LowerChar(s[i]))
  }

  /** Lower-casing a lower-case string changes nothing; in particular lower-casing
      twice is lower-casing once. */
  lemma ToLowerCaseOfLowerCase(s: string)
    requires IsLowerCase(s)
    ensures ToLowerCase(s) == s
  {
  }

  /** `String.endsWith` (case-sensitive). */
  predicate EndsWith(s: string, suffix: string) {
    |suffix| <= |s| && s[|s| - |suffix|..] == suffix
  }

  // ---------------------------------------------------------------------------
  // Boolean.parseBoolean
  // ---------------------------------------------------------------------------

  /** `Boolean.parseBoolean`: true exactly when the string equals "true"
      ignoring case. */
  predicate ParseBoolean(s: string) {
    ToLowerCase(s) == "true"
  }

  /** The accepted spellings letter by letter: "true", "TRUE", "True", "tRuE", ... */
  lemma ParseBooleanSpellings(s: string)
    ensures ParseBoolean(s) <==>
      |s| == 4 && (s[0] == 't' || s[0] == 'T') && (s[1] == 'r' || s[1] == 'R')
               && (s[2] == 'u' || s[2] == 'U') && (s[3] == 'e' || s[3] == 'E')
  {
    if |s| == 4 {
      var l := ToLowerCase(s);
      if ParseBoolean(s) {
        assert l[0] == 't' && l[1] == 'r' && l[2] == 'u' && l[3] == 'e';
      }
    }
  }

  // ---------------------------------------------------------------------------
  // Integer.parseInt (radix 10) and Integer.toString
  // ---------------------------------------------------------------------------

  const MinInt: int := -0x8000_0000
  const MaxInt: int := 0x7fff_ffff

  /** The range of a Java `int`. */
  predicate InInt32(n: int) {
    MinInt <= n <= MaxInt
  }

  predicate IsDigit(c: char) {
    '0' <= c <= '9'
  }

  function DigitValue(c: char): (d: nat)
    requires IsDigit(c)
    ensures d <= 9
  {
    c as int - '0' as int
  }

  function DigitChar(d: nat): (c: char)
    requires d <= 9
    ensures IsDigit(c) && DigitValue(c) == d
  {
    ('0' as int + d) as char
  }

  predicate AllDigits(s: string) {
    forall i :: 0 <= i < |s| ==> IsDigit(s[i])
  }

  /** The value of a string of decimal digits, most significant first. */
  function DigitsValue(s: string): nat
    requires AllDigits(s)
  {
    if s == [] then 0 else DigitsValue(s[..|s| - 1]) * 10 + DigitValue(s[|s| - 1])
  }

  /** The syntax `Integer.parseInt` accepts: an optional sign, then at least one digit. */
  predicate IsDecimalLiteral(s: string) {
    |s| > 0 &&
    if s[0] == '+' || s[0] == '-' then |s| > 1 && AllDigits(s[1..]) else AllDigits(s)
  }

  function LiteralValue(s: string): int
    requires IsDecimalLiteral(s)
  {
    if s[0] == '-' then -(DigitsValue(s[1..]) as int)
    else if s[0] == '+' then DigitsValue(s[1..])
    else DigitsValue(s)
  }

  /** `Integer.parseInt(s)`; `None` stands for the NumberFormatException thrown
      for an empty string, a lone sign, any other non-digit character, or a
      value outside the `int` range. */
  function ParseInt(s: string): (r: Option<int>)
    ensures r.Some? ==> InInt32(r.value)
    ensures r.Some? ==> |s| > 0 && (IsDigit(s[0]) || (|s| > 1 && (s[0] == '+' || s[0] == '-')))
    ensures r.Some? ==> forall i :: 1 <= i < |s| ==> IsDigit(s[i])
    ensures r.Some? && r.value < 0 ==> s[0] == '-'
    ensures r.Some? <==> IsDecimalLiteral(s) && InInt32(LiteralValue(s))
    ensures r.Some? ==> r.value == LiteralValue(s)
  {
    if IsDecimalLiteral(s) && InInt32(LiteralValue(s)) then
      assert s[0] != '+' && s[0] != '-' ==> IsDigit(s[0]);
      Some(LiteralValue(s))
    else
      None
  }

  /** Decimal digits of a natural number, with no leading zero (`Integer.toString`). */
  function NatToString(n: nat): (r: string)
    ensures |r| > 0 && AllDigits(r)
    ensures r[0] == '0' ==> n == 0
  {
    if n < 10 then [DigitChar(n)] else NatToString(n / 10) + [DigitChar(n % 10)]
  }

  /** `Integer.toString` for any integer. */
  function IntToString(n: int): string {
    if n < 0 then "-" + NatToString(-n) else NatToString(n)
  }

  lemma {:induction false} DigitsValueOfNatToString(n: nat)
    ensures DigitsValue(NatToString(n)) == n
  {
    var r := NatToString(n);
    if n >= 10 {
      DigitsValueOfNatToString(n / 10);
      assert r[..|r| - 1] == NatToString(n / 10);
    }
  }

  /** `Integer.parseInt` inverts `Integer.toString` on the whole `int` range. */
  lemma ParseIntOfIntToString(n: int)
    requires InInt32(n)
    ensures ParseInt(IntToString(n)) == Some(n)
  {
    var s := IntToString(n);
    if n < 0 {
      DigitsValueOfNatToString(-n);
      assert s[1..] == NatToString(-n);
    } else {
      DigitsValueOfNatToString(n);
    }
  }

  /** Every integer outside the `int` range is rejected, though its rendering
      is a decimal literal. */
  lemma ParseIntRejectsOutOfRange(n: int)
    requires !InInt32(n)
    ensures IsDecimalLiteral(IntToString(n))
    ensures ParseInt(IntToString(n)) == None
  {
    var s := IntToString(n);
    if n < 0 {
      DigitsValueOfNatToString(-n);
      assert s[1..] == NatToString(-n);
    } else {
      DigitsValueOfNatToString(n);
    }
  }

  /** `count` zero digits. */
  function Zeros(count: nat): (z: string)
    ensures |z| == count && AllDigits(z)
  {
    seq(count, i => '0')
  }

  /** Leading zeros add nothing to a digit string's value. */
  lemma {:induction false} DigitsValueLeadingZeros(count: nat, s: string)
    requires AllDigits(s)
    ensures AllDigits(Zeros(count) + s)
    ensures DigitsValue(Zeros(count) + s) == DigitsValue(s)
    decreases |s|
  {
    var z := Zeros(count) + s;
    assert AllDigits(z) by {
      forall i | 0 <= i < |z| ensures IsDigit(z[i]) {
        if i < count { assert z[i] == '0'; } else { assert z[i] == s[i - count]; }
      }
    }
    if s == [] {
      assert z == Zeros(count);
      DigitsValueOfZeros(count);
    } else {
      var init := s[..|s| - 1];
      DigitsValueLeadingZeros(count, init);
      assert z[..|z| - 1] == Zeros(count) + init;
      assert z[|z| - 1] == s[|s| - 1];
    }
  }

  lemma {:induction false} DigitsValueOfZeros(count: nat)
    ensures DigitsValue(Zeros(count)) == 0
  {
    if count > 0 {
      DigitsValueOfZeros(count - 1);
      assert Zeros(count)[..count - 1] == Zeros(count - 1);
    }
  }

  /** The literals `Integer.parseInt` accepts beyond the canonical rendering: a
      '+' sign and leading zeros leave the value unchanged, and "-0", "-00", ...
      parse as 0. */
  lemma ParseIntNonCanonical(s: string, count: nat)
    requires s != [] && AllDigits(s)
    ensures ParseInt("+" + s) == ParseInt(s)
    ensures ParseInt(Zeros(count) + s) == ParseInt(s)
    ensures ParseInt("-" + Zeros(count + 1)) == Some(0)
  {
    var p := "+" + s;
    assert p[1..] == s;
    DigitsValueLeadingZeros(count, s);
    var z := Zeros(count) + s;
    assert z[0] == '0' || z[0] == s[0];
    var m := "-" + Zeros(count + 1);
    assert m[1..] == Zeros(count + 1);
    DigitsValueOfZeros(count + 1);
  }

  /** A character other than a digit after the first position makes parsing fail. */
  lemma ParseIntRejectsNonDigit(s: string, i: nat)
    requires 1 <= i < |s| && !IsDigit(s[i])
    ensures ParseInt(s) == None
  {
  }
}
