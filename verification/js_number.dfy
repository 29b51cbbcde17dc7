/** `parseInt(s)` with the radix left out, as the route calls it to read
    the SMTP port. Numbers are unbounded integers; `None` stands for NaN. */
module JsNumber {
  import opened Js

  /** Value of `c` as a digit of base `radix` (10 or 16), or -1 when it is not one. */
  function DigitValue(c: char, radix: nat): int {
    var v :=
      if '0' <= c <= '9' then c as int - '0' as int
      else if 'a' <= c <= 'z' then c as int - 'a' as int + 10
      else if 'A' <= c <= 'Z' then c as int - 'A' as int + 10
      else -1;
    if 0 <= v < radix then v else -1
  }

  predicate IsDigit(c: char, radix: nat) {
    DigitValue(c, radix) >= 0
  }

  /** The input with its leading white space removed. */
  function TrimStart(s: string): (r: string)
    ensures |r| <= |s| && r == s[|s| - |r|..]
    ensures forall k | 0 <= k < |s| - |r| :: IsSpace(s[k])
    ensures r == [] || !IsSpace(r[0])
  {
    if |s| > 0 && IsSpace(s[0]) then TrimStart(s[1..]) else s
  }

  /** The longest prefix of `s` made of digits of base `radix`. */
  function DigitPrefix(s: string, radix: nat): (r: string)
    ensures |r| <= |s| && r == s[..|r|]
    ensures forall k | 0 <= k < |r| :: IsDigit(r[k], radix)
    ensures |r| < |s| ==> !IsDigit(s[|r|], radix)
  {
    if |s| > 0 && IsDigit(s[0], radix) then [s[0]] + DigitPrefix(s[1..], radix) else []
  }

  lemma ProductOfNats(a: nat, b: nat)
    ensures a * b >= 0
  {
  }

  /** Positional value of a digit string, most significant digit first. */
  function ValueOf(ds: string, radix: nat): nat
    requires forall k | 0 <= k < |ds| :: IsDigit(ds[k], radix)
  {
    if |ds| == 0 then 0
    else
      var init, last := ds[..|ds| - 1], ds[|ds| - 1];
      assert forall k | 0 <= k < |init| :: init[k] == ds[k];
      assert IsDigit(last, radix);
      var high: nat := ValueOf(init, radix);
      ProductOfNats(high, radix);
      high * radix + DigitValue(last, radix)
  }

  /** `t` starts with a sign character. */
  predicate HasSign(t: string) {
    |t| > 0 && (t[0] == '-' || t[0] == '+')
  }

  /** `t` without its sign character, if it has one. */
  function Unsigned(t: string): string {
    if HasSign(t) then t[1..] else t
  }

  /** `u` starts with the prefix "0x" or "0X". */
  predicate HexPrefixed(u: string) {
    |u| >= 2 && u[0] == '0' && (u[1] == 'x' || u[1] == 'X')
  }

  /** The number an unsigned input starts with: base 16 after a "0x" or "0X"
      prefix, base 10 otherwise, read from the longest run of digits; no
      digit at all gives NaN. */
  function Magnitude(u: string): Option<nat> {
    var radix := if HexPrefixed(u) then 16 else 10;
    var ds := DigitPrefix(if HexPrefixed(u) then u[2..] else u, radix);
    if ds == [] then None else Some(ValueOf(ds, radix))
  }

  /** `parseInt(s)`: skip leading white space, read an optional sign, then
      the magnitude. */
  function ParseInt(s: string): Option<int> {
    var t := TrimStart(s);
    match Magnitude(Unsigned(t))
    case None => None
    case Some(m) =>
      var v: int := m;
      Some(if HasSign(t) && t[0] == '-' then -v else v)
  }

  function DigitChar(d: nat): char
    requires d < 10
  {
    ('0' as int + d) as char
  }

  /** The decimal numeral of `n`, as `String(n)` writes it. */
  function ShowNat(n: nat): (r: string)
    ensures |r| > 0
    ensures forall k | 0 <= k < |r| :: IsDigit(r[k], 10)
  {
    if n < 10 then [DigitChar(n)] else ShowNat(n / 10) + [DigitChar(n % 10)]
  }

  /** A numeral starts with '0' only when it is the numeral of zero. */
  lemma {:induction false} ShowNatLeadingZero(n: nat)
    ensures ShowNat(n)[0] == '0' <==> n == 0
  {
    if n >= 10 {
      ShowNatLeadingZero(n / 10);
    }
  }

  /** Reading a numeral back gives the number it was written from. */
  lemma {:induction false} ValueOfShowNat(n: nat)
    ensures ValueOf(ShowNat(n), 10) == n
  {
    if n >= 10 {
      var s := ShowNat(n);
      assert s[..|s| - 1] == ShowNat(n / 10);
      ValueOfShowNat(n / 10);
    }
  }

  /** A run of digits followed by a non-digit is exactly the digit prefix. */
  lemma {:induction false} DigitPrefixOfAppend(ds: string, rest: string, radix: nat)
    requires forall k | 0 <= k < |ds| :: IsDigit(ds[k], radix)
    requires rest == [] || !IsDigit(rest[0], radix)
    ensures DigitPrefix(ds + rest, radix) == ds
  {
    var s := ds + rest;
    if |ds| == 0 {
      assert s == rest;
    } else {
      assert s[0] == ds[0] && s[1..] == ds[1..] + rest;
      DigitPrefixOfAppend(ds[1..], rest, radix);
      assert ds == [ds[0]] + ds[1..];
    }
  }

  /** Text that starts with a decimal digit has no leading white space and no sign. */
  lemma TrimStartOfDigit(s: string)
    requires |s| > 0 && '0' <= s[0] <= '9'
    ensures TrimStart(s) == s && !HasSign(s) && Unsigned(s) == s
  {
    assert !IsSpace(s[0]);
  }

  /** Without a "0x" or "0X" prefix the magnitude is read in base 10. */
  lemma DecimalMagnitude(s: string)
    requires |s| > 0 && '0' <= s[0] <= '9'
    requires s[0] == '0' && |s| >= 2 ==> s[1] != 'x' && s[1] != 'X'
    ensures Magnitude(s) == Some(ValueOf(DigitPrefix(s, 10), 10))
  {
    assert !HexPrefixed(s);
    assert IsDigit(s[0], 10);
  }

  /** On text that starts with a decimal digit and not with "0x" or "0X",
      `parseInt` reads the longest run of decimal digits. */
  lemma ParseIntOfDecimal(s: string)
    requires |s| > 0 && '0' <= s[0] <= '9'
    requires s[0] == '0' && |s| >= 2 ==> s[1] != 'x' && s[1] != 'X'
    ensures ParseInt(s) == Some(ValueOf(DigitPrefix(s, 10), 10))
  {
    TrimStartOfDigit(s);
    DecimalMagnitude(s);
  }

  /** Text whose first character is neither white space, a sign nor a
      decimal digit is not a number: `parseInt` gives NaN. */
  lemma ParseIntNoDigit(s: string)
    requires |s| > 0 && !IsSpace(s[0]) && !HasSign(s) && !IsDigit(s[0], 10)
    ensures ParseInt(s) == None
  {
    assert TrimStart(s) == s;
    assert Unsigned(s) == s;
    assert s[0] != '0';
    assert !HexPrefixed(s);
  }

  /** `parseInt` reads a decimal numeral back, also when the numeral is
      followed by text that cannot continue it ("465abc" gives 465); the one
      exception is "0" followed by "x" or "X", which switches to base 16. */
  lemma ParseIntShowNat(n: nat, rest: string)
    requires rest == [] || !IsDigit(rest[0], 10)
    requires n == 0 ==> rest == [] || (rest[0] != 'x' && rest[0] != 'X')
    ensures ParseInt(ShowNat(n) + rest) == Some(n)
  {
    var ds := ShowNat(n);
    var s := ds + rest;
    assert s[0] == ds[0] && IsDigit(ds[0], 10);
    ShowNatLeadingZero(n);
    if n == 0 {
      assert ds == [DigitChar(0)];
      assert |s| >= 2 ==> s[1] == rest[0];
    }
    ParseIntOfDecimal(s);
    DigitPrefixOfAppend(ds, rest, 10);
    ValueOfShowNat(n);
  }
}
