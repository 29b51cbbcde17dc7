/** The small pieces of JavaScript semantics the contact route relies on:
    `undefined`-or-string values, truthiness, the `||` default, template
    interpolation, `String.prototype.includes`, `indexOf` and the
    white-space class `\s` of ECMAScript regular expressions. */
module Js {

  /** An optional value; `None` stands for JavaScript's `undefined`. */
  datatype Option<+T> = None | Some(value: T)

  /** Truthiness of a value that is `undefined` or a string: `undefined`
      and the empty string are falsy, every other string is truthy. */
  predicate Truthy(v: Option<string>) {
    v.Some? && v.value != ""
  }

  /** `v || fallback` for a value that is `undefined` or a string. */
  function Or(v: Option<string>, fallback: string): string {
    if Truthy(v) then v.value else fallback
  }

  /** `${v}` inside a template literal: `undefined` renders as the text "undefined". */
  function Interpolate(v: Option<string>): string {
    match v
    case Some(s) => s
    case None => "undefined"
  }

  predicate StartsWith(s: string, p: string) {
    |p| <= |s| && s[..|p|] == p
  }

  /** `s.includes(p)`: `p` occurs in `s` at some position. */
  predicate Includes(s: string, p: string) {
    exists k | 0 <= k <= |s| :: StartsWith(s[k..], p)
  }

  lemma IncludesSelf(p: string)
    ensures Includes(p, p)
  {
    assert StartsWith(p[0..], p);
  }

  /** Appending text on either side keeps whatever a string includes. */
  lemma IncludesExtend(a: string, s: string, b: string, p: string)
    requires Includes(s, p)
    ensures Includes(a + s, p) && Includes(s + b, p)
  {
    var k :| 0 <= k <= |s| && StartsWith(s[k..], p);
    assert (a + s)[|a| + k..][..|p|] == s[k..][..|p|];
    assert StartsWith((a + s)[|a| + k..], p);
    assert (s + b)[k..][..|p|] == s[k..][..|p|];
    assert StartsWith((s + b)[k..], p);
  }

  /** A string includes whatever stands in its middle. */
  lemma IncludesMiddle(a: string, p: string, b: string)
    ensures Includes(a + p + b, p)
  {
    IncludesSelf(p);
    IncludesExtend(a, p, [], p);
    IncludesExtend([], a + p, b, p);
  }

  /** A text built from a template with three holes includes each value
      filled into a hole. */
  lemma IncludesFilledHoles(a: string, x: string, b: string, y: string, c: string, z: string, d: string)
    ensures Includes(a + x + b + y + c + z + d, x)
    ensures Includes(a + x + b + y + c + z + d, y)
    ensures Includes(a + x + b + y + c + z + d, z)
  {
    var t := a + x + b + y + c + z + d;
    assert t == a + x + (b + y + c + z + d);
    IncludesMiddle(a, x, b + y + c + z + d);
    assert t == a + x + b + y + (c + z + d);
    IncludesMiddle(a + x + b, y, c + z + d);
    IncludesMiddle(a + x + b + y + c, z, d);
  }

  /** `s.indexOf(c)` for a single character, with |s| standing for -1. */
  function IndexOf(s: string, c: char): (i: nat)
    ensures i <= |s|
    ensures i < |s| ==> s[i] == c
    ensures forall k | 0 <= k < i :: s[k] != c
  {
    if |s| == 0 then 0
    else if s[0] == c then 0
    else 1 + IndexOf(s[1..], c)
  }

  /** The first occurrence of `c` is where `indexOf` finds it. */
  lemma {:induction false} IndexOfFirst(s: string, c: char, i: nat)
    requires i < |s| && s[i] == c
    requires forall k | 0 <= k < i :: s[k] != c
    ensures IndexOf(s, c) == i
  {
    if i > 0 {
      assert forall k | 0 <= k < i - 1 :: s[1..][k] == s[k + 1];
      IndexOfFirst(s[1..], c, i - 1);
    }
  }

  /** Number of occurrences of `c` in `s`. */
  function Count(s: string, c: char): nat {
    if |s| == 0 then 0
    else (if s[0] == c then 1 else 0) + Count(s[1..], c)
  }

  lemma {:induction false} CountAppend(a: string, b: string, c: char)
    ensures Count(a + b, c) == Count(a, c) + Count(b, c)
  {
    if |a| == 0 {
      assert a + b == b;
    } else {
      assert (a + b)[1..] == a[1..] + b;
      CountAppend(a[1..], b, c);
    }
  }

  lemma {:induction false} CountZero(s: string, c: char)
    ensures Count(s, c) == 0 <==> forall k | 0 <= k < |s| :: s[k] != c
  {
    if |s| > 0 {
      CountZero(s[1..], c);
      assert forall k | 1 <= k < |s| :: s[k] == s[1..][k - 1];
    }
  }

  /** A character `c` occurs exactly once in `s` iff `s` splits around one
      occurrence of `c` into two parts free of `c`. */
  lemma CountOne(s: string, c: char, i: nat)
    requires i < |s| && s[i] == c
    ensures Count(s, c) == 1 <==> forall k | 0 <= k < |s| && k != i :: s[k] != c
  {
    assert s == s[..i] + ([s[i]] + s[i + 1..]);
    CountAppend(s[..i], [s[i]] + s[i + 1..], c);
    CountAppend([s[i]], s[i + 1..], c);
    assert Count([s[i]], c) == 1;
    CountZero(s[..i], c);
    CountZero(s[i + 1..], c);
    forall k | 0 <= k < |s| && k != i
      ensures s[k] == (if k < i then s[..i][k] else s[i + 1..][k - i - 1])
    {
    }
  }

  /** The ECMAScript white-space class `\s`: WhiteSpace and LineTerminator
      code points (also what `parseInt` skips at the start of its input). */
  predicate IsSpace(c: char) {
    || c == '\t' || c == '\n' || c == '\U{000B}' || c == '\U{000C}' || c == '\r'
    || c == ' ' || c == '\U{00A0}' || c == '\U{1680}'
    || ('\U{2000}' <= c <= '\U{200A}')
    || c == '\U{2028}' || c == '\U{2029}' || c == '\U{202F}' || c == '\U{205F}'
    || c == '\U{3000}' || c == '\U{FEFF}'
  }
}
