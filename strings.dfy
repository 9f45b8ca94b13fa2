/** The few pieces of Python's `str` behaviour that the bot relies on:
    `startswith`, `isdigit` (restricted to ASCII digits), `int()` of a
    digit string, and `replace` of the `{user}` placeholder. */
module Strings {

  predicate StartsWith(s: string, prefix: string) {
    |prefix| <= |s| && s[..|prefix|] == prefix
  }

  predicate IsAsciiDigit(c: char) {
    '0' <= c <= '9'
  }

  predicate AllDigits(s: string) {
    forall i | 0 <= i < |s| :: IsAsciiDigit(s[i])
  }

  /** `s.isdigit()`: false on the empty string. */
  predicate IsDigits(s: string) {
    |s| > 0 && AllDigits(s)
  }

  function DigitValue(c: char): (d: nat)
    requires IsAsciiDigit(c)
    ensures d < 10
  {
    (c as int) - ('0' as int)
  }

  function DigitChar(d: nat): (c: char)
    requires d < 10
    ensures IsAsciiDigit(c) && DigitValue(c) == d
  {
    (('0' as int) + d) as char
  }

  /** `int(s)` for a string of decimal digits (leading zeros allowed). */
  function DigitsValue(s: string): nat
    requires AllDigits(s)
    decreases |s|
  {
    if s == [] then 0 else DigitsValue(s[..|s| - 1]) * 10 + DigitValue(s[|s| - 1])
  }

  /** `str(n)` for a natural number: its shortest decimal rendering. */
  function Decimal(n: nat): (s: string)
    ensures IsDigits(s)
    decreases n
  {
    if n < 10 then [DigitChar(n)] else Decimal(n / 10) + [DigitChar(n % 10)]
  }

  lemma {:induction false} LeadingDigitPositive(s: string)
    requires IsDigits(s) && s[0] != '0'
    ensures DigitsValue(s) >= 1
    decreases |s|
  {
    if |s| > 1 {
      var init := s[..|s| - 1];
      assert init[0] == s[0];
      LeadingDigitPositive(init);
    }
  }

  /** A digit string without a leading zero is exactly the rendering of
      the number it denotes: `str(int(s)) == s`. */
  lemma {:induction false} DecimalRoundTrip(s: string)
    requires IsDigits(s) && s[0] != '0'
    ensures Decimal(DigitsValue(s)) == s
    decreases |s|
  {
    var init := s[..|s| - 1];
    var d := DigitValue(s[|s| - 1]);
    assert DigitChar(d) == s[|s| - 1];
    if |s| == 1 {
      assert s == [s[0]];
    } else {
      assert init[0] == s[0];
      LeadingDigitPositive(init);
      DecimalRoundTrip(init);
      var v := DigitsValue(init) * 10 + d;
      assert v / 10 == DigitsValue(init) && v % 10 == d;
      assert s == init + [s[|s| - 1]];
    }
  }

  /** Reading a longer digit string never gives a smaller number. */
  lemma {:induction false} DigitsValuePrefix(s: string, k: nat)
    requires AllDigits(s) && k <= |s|
    ensures DigitsValue(s[..k]) <= DigitsValue(s)
    decreases |s| - k
  {
    if k < |s| {
      var init := s[..|s| - 1];
      assert init[..k] == s[..k];
      DigitsValuePrefix(init, k);
    } else {
      assert s[..k] == s;
    }
  }

  /** A leading zero does not change the number a digit string denotes. */
  lemma {:induction false} LeadingZeroValue(s: string)
    requires AllDigits(s)
    ensures AllDigits("0" + s) && DigitsValue("0" + s) == DigitsValue(s)
    decreases |s|
  {
    var z := "0" + s;
    assert forall i | 1 <= i < |z| :: z[i] == s[i - 1];
    if s != [] {
      var init := s[..|s| - 1];
      assert z[..|z| - 1] == "0" + init;
      LeadingZeroValue(init);
    }
  }

  // ---------------------------------------------------------------
  // `template.replace("{user}", name)`
  // ---------------------------------------------------------------

  const Placeholder: string := "{user}"

  predicate OccursAt(s: string, i: nat)
    requires i + |Placeholder| <= |s|
  {
    s[i..i + |Placeholder|] == Placeholder
  }

  predicate ContainsPlaceholder(s: string) {
    exists i: nat | i + |Placeholder| <= |s| :: OccursAt(s, i)
  }

  /** Python's `str.replace`: scans left to right and replaces each
      non-overlapping occurrence of the placeholder. */
  function SubstituteUser(s: string, name: string): string
    decreases |s|
  {
    if |s| < |Placeholder| then s
    else if s[..|Placeholder|] == Placeholder then name + SubstituteUser(s[|Placeholder|..], name)
    else [s[0]] + SubstituteUser(s[1..], name)
  }

  lemma NoPlaceholderInTail(s: string)
    requires |s| > 0 && !ContainsPlaceholder(s)
    ensures !ContainsPlaceholder(s[1..])
  {
    if ContainsPlaceholder(s[1..]) {
      var i: nat :| i + |Placeholder| <= |s[1..]| && OccursAt(s[1..], i);
      assert s[i + 1..i + 1 + |Placeholder|] == s[1..][i..i + |Placeholder|];
      assert OccursAt(s, i + 1);
    }
  }

  /** A template without the placeholder is returned unchanged. */
  lemma {:induction false} SubstituteWithoutPlaceholder(s: string, name: string)
    requires !ContainsPlaceholder(s)
    ensures SubstituteUser(s, name) == s
    decreases |s|
  {
    if |s| >= |Placeholder| {
      assert s[..|Placeholder|] != Placeholder by {
        if s[..|Placeholder|] == Placeholder {
          assert OccursAt(s, 0);
        }
      }
      NoPlaceholderInTail(s);
      SubstituteWithoutPlaceholder(s[1..], name);
      assert s == [s[0]] + s[1..];
    }
  }

  /** A non-empty text without the placeholder, followed by the
      placeholder, does not start with it. */
  lemma NoPlaceholderAtStart(a: string, b: string)
    requires a != [] && !ContainsPlaceholder(a)
    ensures (a + Placeholder + b)[..|Placeholder|] != Placeholder
  {
    var s := a + Placeholder + b;
    if |a| >= |Placeholder| {
      assert s[..|Placeholder|] == a[0..0 + |Placeholder|];
      assert !OccursAt(a, 0);
    } else {
      // the placeholder starts with '{', which occurs nowhere else in it
      assert s[|a|] == '{';
      assert Placeholder[|a|] != '{';
    }
  }

  /** The first occurrence of the placeholder is replaced by the name and
      the scan resumes right after it: together with
      SubstituteWithoutPlaceholder this says every occurrence is replaced. */
  lemma {:induction false} SubstituteFirstOccurrence(a: string, b: string, name: string)
    requires !ContainsPlaceholder(a)
    ensures SubstituteUser(a + Placeholder + b, name) == a + name + SubstituteUser(b, name)
    decreases |a|
  {
    var s := a + Placeholder + b;
    if a == [] {
      assert s[..|Placeholder|] == Placeholder;
      assert s[|Placeholder|..] == b;
    } else {
      NoPlaceholderAtStart(a, b);
      NoPlaceholderInTail(a);
      assert s[1..] == a[1..] + Placeholder + b;
      SubstituteFirstOccurrence(a[1..], b, name);
      assert a == [a[0]] + a[1..];
    }
  }

  /** `"Hi {user}!".replace("{user}", "Ann") == "Hi Ann!"`. */
  lemma SubstituteGreetsAnn()
    ensures SubstituteUser("Hi {user}!", "Ann") == "Hi Ann!"
  {
    assert "Hi {user}!" == "Hi " + Placeholder + "!";
    assert !ContainsPlaceholder("Hi ");
    SubstituteFirstOccurrence("Hi ", "!", "Ann");
  }
}
