/** The email-shape check of the contact route, the regular expression
    /^[^\s@]+@[^\s@]+\.[^\s@]+$/ (route.ts line 20), in three forms:
    - `RegexMatches`, the language of the expression written out with the
      positions of its literal '@' and '.';
    - `Test`, a single-split check that is what the handler calls;
    - `WellShaped`, the shape in words: one '@', a non-empty local part
      without white space, and a domain part without white space or '@'
      that has a '.' with a character on each side.
    The lemmas at the end show that the three agree on every string. */
module EmailPattern {
  import opened Js

  /** A member of the character class `[^\s@]`. */
  predicate InClass(c: char) {
    !IsSpace(c) && c != '@'
  }

  predicate AllInClass(s: string) {
    forall k | 0 <= k < |s| :: InClass(s[k])
  }

  predicate NoSpace(s: string) {
    forall k | 0 <= k < |s| :: !IsSpace(s[k])
  }

  /** A '.' at neither end of `d`. */
  predicate HasInnerDot(d: string) {
    exists j | 1 <= j < |d| - 1 :: d[j] == '.'
  }

  /** `s` matches the whole expression: `s[i]` is the literal '@', `s[j]` the
      literal '.', and the three runs around them are non-empty runs of the class. */
  predicate RegexMatches(s: string) {
    exists i, j | 0 < i && i + 1 < j && j + 1 < |s| ::
      && s[i] == '@' && s[j] == '.'
      && AllInClass(s[..i]) && AllInClass(s[i + 1..j]) && AllInClass(s[j + 1..])
  }

  /** `emailRegex.test(s)`: split at the first '@', then check both sides. */
  predicate Test(s: string) {
    var i := IndexOf(s, '@');
    && 0 < i < |s|
    && AllInClass(s[..i])
    && AllInClass(s[i + 1..])
    && HasInnerDot(s[i + 1..])
  }

  /** The shape the expression accepts, stated in words. */
  predicate WellShaped(s: string) {
    && Count(s, '@') == 1
    && exists i | 0 < i < |s| ::
         && s[i] == '@'
         && NoSpace(s[..i])
         && AllInClass(s[i + 1..])
         && HasInnerDot(s[i + 1..])
  }

  lemma AllInClassConcat(a: string, b: string)
    ensures AllInClass(a + b) <==> AllInClass(a) && AllInClass(b)
  {
    if AllInClass(a + b) {
      assert forall k | 0 <= k < |a| :: a[k] == (a + b)[k];
      assert forall k | 0 <= k < |b| :: b[k] == (a + b)[|a| + k];
    }
  }

  lemma TestImpliesRegex(s: string)
    requires Test(s)
    ensures RegexMatches(s)
  {
    var i := IndexOf(s, '@');
    var d := s[i + 1..];
    var j' :| 1 <= j' < |d| - 1 && d[j'] == '.';
    var j := i + 1 + j';
    assert s[j] == '.';
    assert s[i + 1..j] == d[..j'];
    assert s[j + 1..] == d[j' + 1..];
    assert AllInClass(s[i + 1..j]);
    assert AllInClass(s[j + 1..]);
  }

  /** The part after the literal '@' of a match is a run of the class with an inner '.'. */
  lemma DomainOfMatch(s: string, i: nat, j: nat)
    requires i + 1 < j && j + 1 < |s| && s[j] == '.'
    requires AllInClass(s[i + 1..j]) && AllInClass(s[j + 1..])
    ensures AllInClass(s[i + 1..]) && HasInnerDot(s[i + 1..])
  {
    var d := s[i + 1..];
    assert d == s[i + 1..j] + [s[j]] + s[j + 1..];
    AllInClassConcat(s[i + 1..j], [s[j]]);
    AllInClassConcat(s[i + 1..j] + [s[j]], s[j + 1..]);
    assert d[j - i - 1] == '.';
  }

  lemma RegexImpliesTest(s: string)
    requires RegexMatches(s)
    ensures Test(s)
  {
    var i, j :| 0 < i && i + 1 < j && j + 1 < |s|
      && s[i] == '@' && s[j] == '.'
      && AllInClass(s[..i]) && AllInClass(s[i + 1..j]) && AllInClass(s[j + 1..]);
    assert forall k | 0 <= k < i :: s[k] == s[..i][k];
    IndexOfFirst(s, '@', i);
    DomainOfMatch(s, i, j);
  }

  /** The single-split check accepts exactly the strings the expression matches. */
  lemma TestIsRegex(s: string)
    ensures Test(s) <==> RegexMatches(s)
  {
    if Test(s) {
      TestImpliesRegex(s);
    }
    if RegexMatches(s) {
      RegexImpliesTest(s);
    }
  }

  lemma TestImpliesWellShaped(s: string)
    requires Test(s)
    ensures WellShaped(s)
  {
    var i := IndexOf(s, '@');
    var d := s[i + 1..];
    assert forall k | i < k < |s| :: s[k] == d[k - i - 1];
    CountOne(s, '@', i);
    assert forall k | 0 <= k < i :: s[k] == s[..i][k];
    assert NoSpace(s[..i]);
  }

  lemma WellShapedImpliesTest(s: string)
    requires WellShaped(s)
    ensures Test(s)
  {
    var i :| 0 < i < |s| && s[i] == '@' && NoSpace(s[..i])
      && AllInClass(s[i + 1..]) && HasInnerDot(s[i + 1..]);
    CountOne(s, '@', i);
    IndexOfFirst(s, '@', i);
    assert forall k | 0 <= k < i :: s[k] == s[..i][k];
    assert AllInClass(s[..i]);
  }

  /** The single-split check accepts exactly the strings of the described shape. */
  lemma TestIsWellShaped(s: string)
    ensures Test(s) <==> WellShaped(s)
  {
    if Test(s) {
      TestImpliesWellShaped(s);
    }
    if WellShaped(s) {
      WellShapedImpliesTest(s);
    }
  }

  /** Every string of the form local@label.label with non-empty runs of the class is accepted. */
  lemma AcceptsShape(a: string, b: string, c: string)
    requires |a| > 0 && |b| > 0 && |c| > 0
    requires AllInClass(a) && AllInClass(b) && AllInClass(c)
    ensures Test(a + "@" + b + "." + c)
  {
    var s := a + "@" + b + "." + c;
    var i, j := |a|, |a| + 1 + |b|;
    assert s[..i] == a && s[i + 1..j] == b && s[j + 1..] == c;
    assert s[i] == '@' && s[j] == '.';
    TestIsRegex(s);
  }

  /** A string without '@' is rejected. */
  lemma RejectsNoAt(s: string)
    requires '@' !in s
    ensures !Test(s)
  {
  }

  /** A string with '@' at two different positions is rejected. */
  lemma RejectsTwoAts(s: string, i: nat, j: nat)
    requires i < j < |s| && s[i] == '@' && s[j] == '@'
    ensures !Test(s)
  {
    CountOne(s, '@', i);
    TestIsWellShaped(s);
  }

  /** A string holding a white-space character anywhere is rejected. */
  lemma RejectsSpace(s: string, k: nat)
    requires k < |s| && IsSpace(s[k])
    ensures !Test(s)
  {
  }

  /** A string that ends right after an '@' has no domain and is rejected. */
  lemma RejectsNoDomain(s: string)
    requires |s| > 0 && s[|s| - 1] == '@'
    ensures !Test(s)
  {
    var i := IndexOf(s, '@');
    if i < |s| - 1 {
      assert s[i + 1..][|s| - i - 2] == '@';
    }
  }

  /** The shortest address of the route's tests is accepted. */
  lemma ShortestAccepted()
    ensures Test("a@b.c")
  {
    AcceptsShape("a", "b", "c");
    assert "a" + "@" + "b" + "." + "c" == "a@b.c";
  }

  /** A usual address is accepted. */
  lemma UsualAccepted()
    ensures Test("test@example.com")
  {
    AcceptsShape("test", "example", "com");
    assert "test" + "@" + "example" + "." + "com" == "test@example.com";
  }

  /** Addresses of the route's tests that the pattern rejects, one lemma each. */
  lemma NoDomainExample()
    ensures !Test("test@")
  {
    RejectsNoDomain("test@");
  }

  lemma SpaceExample()
    ensures !Test("test @example.com")
  {
    RejectsSpace("test @example.com", 4);
  }

  lemma TwoAtsExample()
    ensures !Test("test@example@domain.com")
  {
    RejectsTwoAts("test@example@domain.com", 4, 12);
  }
}
