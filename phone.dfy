/**
 * The phone-number normaliser used by both lead forms, and the two
 * schema rules that accept a phone value.
 *
 * Every keystroke in a phone field is passed through FormatPhoneNumber
 * before it is stored: all non-digits are dropped, at most ten digits are
 * kept, and a space is inserted after the third and the sixth digit.
 */
module Phone {

  /** `\d` and `[0-9]` of a JavaScript regular expression without the `u` flag. */
  predicate IsDigit(c: char) {
    '0' <= c <= '9'
  }

  predicate AllDigits(s: string) {
    forall i :: 0 <= i < |s| ==> IsDigit(s[i])
  }

  function Min(a: int, b: int): int {
    if a <= b then a else b
  }

  /** `s.replace(/[^0-9]/g, "")`: the digits of `s`, in order. */
  function DigitsOf(s: string): (d: string)
    ensures |d| <= |s|
    ensures AllDigits(d)
  {
    if s == [] then []
    else if IsDigit(s[0]) then [s[0]] + DigitsOf(s[1..])
    else DigitsOf(s[1..])
  }

  /** JavaScript's `s.substring(start, end)`: both bounds clamped to the string, swapped when reversed. */
  function JsSubstring(s: string, start: int, end: int): string {
    var a := if start < 0 then 0 else if start > |s| then |s| else start;
    var b := if end < 0 then 0 else if end > |s| then |s| else end;
    if a <= b then s[a..b] else s[b..a]
  }

  /** formatPhoneNumber: the value stored for whatever the user typed. */
  function FormatPhoneNumber(value: string): string {
    var numbers := DigitsOf(value);
    var formatted := if |numbers| > 0 then JsSubstring(numbers, 0, 3) else "";
    var formatted := if |numbers| > 3 then formatted + " " + JsSubstring(numbers, 3, 6) else formatted;
    if |numbers| > 6 then formatted + " " + JsSubstring(numbers, 6, 10) else formatted
  }

  /** The regular expression `^\d{3} \d{3} \d{4}$`. */
  predicate IsGroupedPhone(s: string) {
    && |s| == 12
    && s[3] == ' ' && s[7] == ' '
    && forall i :: 0 <= i < 12 && i != 3 && i != 7 ==> IsDigit(s[i])
  }

  /** The phone test of the attorney-signup modal: required, and grouped 3-3-4. */
  predicate ModalPhoneAccepts(value: string) {
    value != "" && IsGroupedPhone(value)
  }

  /** The phone test of the footer contact form: empty, or grouped 3-3-4. */
  predicate FooterPhoneAccepts(value: string) {
    value == "" || IsGroupedPhone(value)
  }

  // ---------------------------------------------------------------------
  // Properties of the digit filter
  // ---------------------------------------------------------------------

  lemma {:induction false} DigitsOfAppend(a: string, b: string)
    ensures DigitsOf(a + b) == DigitsOf(a) + DigitsOf(b)
  {
    if a == [] {
      assert a + b == b;
    } else {
      assert (a + b)[1..] == a[1..] + b;
      DigitsOfAppend(a[1..], b);
    }
  }

  /** The filter keeps a string made only of digits as it is, and only such a string. */
  lemma {:induction false} DigitsOfFixesExactlyDigitStrings(s: string)
    ensures DigitsOf(s) == s <==> AllDigits(s)
  {
    if s != [] {
      DigitsOfFixesExactlyDigitStrings(s[1..]);
      if !IsDigit(s[0]) {
        assert |DigitsOf(s)| <= |s[1..]| < |s|;
      }
    }
  }

  lemma DigitsOfSpace()
    ensures DigitsOf(" ") == ""
  {
    assert !IsDigit(' ');
    assert " "[1..] == "";
  }

  // ---------------------------------------------------------------------
  // Properties of the formatter
  // ---------------------------------------------------------------------

  /** The formatter written out by the number of digits the input holds. */
  lemma FormatCases(value: string)
    ensures var n := DigitsOf(value); var r := FormatPhoneNumber(value);
      && (|n| == 0 ==> r == "")
      && (0 < |n| <= 3 ==> r == n)
      && (3 < |n| <= 6 ==> r == n[..3] + " " + n[3..])
      && (6 < |n| ==> r == n[..3] + " " + n[3..6] + " " + n[6..Min(10, |n|)])
  {
    var n := DigitsOf(value);
    if 0 < |n| <= 3 {
      assert n[0..|n|] == n;
    }
  }

  /** Ten typed digits are stored in three groups of 3, 3 and 4. */
  lemma FormatTenDigits(n: string)
    requires AllDigits(n) && |n| == 10
    ensures FormatPhoneNumber(n) == n[..3] + " " + n[3..6] + " " + n[6..]
  {
    DigitsOfFixesExactlyDigitStrings(n);
    FormatCases(n);
  }

  /** Digits around a single space: the space is the only non-digit. */
  lemma SpaceBetween(a: string, b: string)
    requires AllDigits(a) && AllDigits(b)
    ensures var r := a + " " + b;
      && (forall i :: 0 <= i < |r| ==> IsDigit(r[i]) || r[i] == ' ')
      && (forall i :: 0 <= i < |r| && r[i] == ' ' ==> i == |a|)
  {
    var r := a + " " + b;
    forall i | 0 <= i < |r|
      ensures IsDigit(r[i]) || i == |a|
    {
      if i < |a| {
        assert r[i] == a[i];
      } else if i > |a| {
        assert r[i] == b[i - |a| - 1];
      }
    }
  }

  /** The filter drops the separating space and keeps both digit groups. */
  lemma DigitsAround(a: string, b: string)
    requires AllDigits(a) && AllDigits(b)
    ensures DigitsOf(a + " " + b) == a + b
  {
    var sp: string := " ";
    DigitsOfSpace();
    DigitsOfFixesExactlyDigitStrings(a);
    DigitsOfFixesExactlyDigitStrings(b);
    DigitsOfAppend(a, sp);
    assert DigitsOf(a + sp) == a + [] == a;
    DigitsOfAppend(a + sp, b);
  }

  /** Three digit groups joined by single spaces. */
  lemma ThreeGroups(a: string, b: string, c: string)
    requires AllDigits(a) && AllDigits(b) && AllDigits(c)
    ensures var r := a + " " + b + " " + c;
      && DigitsOf(r) == a + b + c
      && (forall i :: 0 <= i < |r| ==> IsDigit(r[i]) || r[i] == ' ')
      && (forall i :: 0 <= i < |r| && r[i] == ' ' ==> i == |a| || i == |a| + |b| + 1)
  {
    var ab := a + " " + b;
    SpaceBetween(a, b);
    DigitsAround(a, b);
    DigitsOfSpace();
    DigitsOfAppend(ab, " ");
    DigitsOfAppend(ab + " ", c);
    DigitsOfFixesExactlyDigitStrings(c);
    var r := ab + " " + c;
    forall i | 0 <= i < |r|
      ensures IsDigit(r[i]) || i == |a| || i == |ab|
    {
      if i < |ab| {
        assert r[i] == ab[i];
      } else if i > |ab| {
        assert r[i] == c[i - |ab| - 1];
      }
    }
  }

  /** The layout of an output `r` for the digits `n` typed. */
  predicate LaidOut(n: string, r: string) {
    && (forall i :: 0 <= i < |r| ==> IsDigit(r[i]) || r[i] == ' ')
    && |r| == Min(10, |n|) + (if |n| > 3 then 1 else 0) + (if |n| > 6 then 1 else 0)
    && (forall i :: 0 <= i < |r| && r[i] == ' ' ==> i == 3 || i == 7)
    && (|n| > 3 <==> |r| > 3 && r[3] == ' ')
    && (|n| > 6 <==> |r| > 7 && r[7] == ' ')
    && DigitsOf(r) == n[..Min(10, |n|)]
  }

  lemma LayoutOneGroup(n: string)
    requires AllDigits(n) && |n| <= 3
    ensures LaidOut(n, n)
  {
    DigitsOfFixesExactlyDigitStrings(n);
    assert n[..Min(10, |n|)] == n;
  }

  lemma LayoutTwoGroups(n: string)
    requires AllDigits(n) && 3 < |n| <= 6
    ensures LaidOut(n, n[..3] + " " + n[3..])
  {
    SpaceBetween(n[..3], n[3..]);
    DigitsAround(n[..3], n[3..]);
    assert n[..Min(10, |n|)] == n[..3] + n[3..];
  }

  lemma LayoutThreeGroups(n: string)
    requires AllDigits(n) && 6 < |n|
    ensures LaidOut(n, n[..3] + " " + n[3..6] + " " + n[6..Min(10, |n|)])
  {
    var m := Min(10, |n|);
    ThreeGroups(n[..3], n[3..6], n[6..m]);
    assert n[..m] == n[..3] + n[3..6] + n[6..m];
  }

  /** Where the spaces of the output stand, how long it is, and which digits it holds. */
  lemma FormatLayout(value: string)
    ensures var n := DigitsOf(value); var r := FormatPhoneNumber(value);
      && (forall i :: 0 <= i < |r| ==> IsDigit(r[i]) || r[i] == ' ')
      && |r| == Min(10, |n|) + (if |n| > 3 then 1 else 0) + (if |n| > 6 then 1 else 0)
      && (forall i :: 0 <= i < |r| && r[i] == ' ' ==> i == 3 || i == 7)
      && (|n| > 3 <==> |r| > 3 && r[3] == ' ')
      && (|n| > 6 <==> |r| > 7 && r[7] == ' ')
      && DigitsOf(r) == n[..Min(10, |n|)]
  {
    var n := DigitsOf(value);
    FormatCases(value);
    if |n| <= 3 {
      LayoutOneGroup(n);
    } else if |n| <= 6 {
      LayoutTwoGroups(n);
    } else {
      LayoutThreeGroups(n);
    }
    assert LaidOut(n, FormatPhoneNumber(value));
  }

  /**
   * The output holds only digits and spaces, is at most 12 characters long,
   * its digits are the first min(10, k) digits of the input (k digits in
   * all), and it has a space at index 3 exactly when a 4th digit exists and
   * at index 7 exactly when a 7th exists, and nowhere else.
   */
  lemma FormatShape(value: string)
    ensures var n := DigitsOf(value); var r := FormatPhoneNumber(value);
      && (forall i :: 0 <= i < |r| ==> IsDigit(r[i]) || r[i] == ' ')
      && |r| <= 12
      && DigitsOf(r) == n[..Min(10, |n|)]
      && (|n| > 3 <==> |r| > 3 && r[3] == ' ')
      && (|n| > 6 <==> |r| > 7 && r[7] == ' ')
      && (forall i :: 0 <= i < |r| && r[i] == ' ' ==> i == 3 || i == 7)
  {
    FormatLayout(value);
  }

  /** Formatting a value the formatter has already produced changes nothing. */
  lemma FormatIdempotent(value: string)
    ensures FormatPhoneNumber(FormatPhoneNumber(value)) == FormatPhoneNumber(value)
  {
    var n := DigitsOf(value);
    var r := FormatPhoneNumber(value);
    FormatShape(value);
    FormatCases(value);
    FormatCases(r);
    var m := n[..Min(10, |n|)];
    assert DigitsOf(r) == m;
    if |n| > 6 {
      var k := Min(10, |n|);
      assert |m| == k && Min(10, |m|) == k;
      assert m[..3] == n[..3];
      assert m[3..6] == n[3..6];
      assert m[6..k] == n[6..k];
    } else if |n| > 3 {
      assert m == n;
    }
  }

  /** A value in the `XXX XXX XXXX` shape is a fixed point of the formatter. */
  lemma GroupedIsFormatted(s: string)
    requires IsGroupedPhone(s)
    ensures FormatPhoneNumber(s) == s
  {
    var a, b, c := s[..3], s[4..7], s[8..];
    forall k | 0 <= k < 3 ensures IsDigit(a[k]) && IsDigit(b[k]) {
      assert a[k] == s[k] && b[k] == s[k + 4];
    }
    forall k | 0 <= k < 4 ensures IsDigit(c[k]) {
      assert c[k] == s[k + 8];
    }
    assert s == a + " " + b + " " + c;
    ThreeGroups(a, b, c);
    var n := a + b + c;
    FormatCases(s);
    assert n[..3] == a && n[3..6] == b && n[6..10] == c;
  }

  /** A formatted value is in the `XXX XXX XXXX` shape exactly when the raw input held at least ten digits. */
  lemma FormattedIsGroupedIffTenDigits(value: string)
    ensures IsGroupedPhone(FormatPhoneNumber(value)) <==> |DigitsOf(value)| >= 10
  {
    var n := DigitsOf(value);
    var r := FormatPhoneNumber(value);
    FormatShape(value);
    if |n| >= 10 {
      FormatCases(value);
      assert forall i :: 0 <= i < 12 && i != 3 && i != 7 ==> r[i] != ' ';
    }
  }

  /** The modal accepts the stored phone value iff the user typed at least ten digits. */
  lemma ModalAcceptsFormattedIffTenDigits(value: string)
    ensures ModalPhoneAccepts(FormatPhoneNumber(value)) <==> |DigitsOf(value)| >= 10
  {
    FormattedIsGroupedIffTenDigits(value);
  }

  /** The footer accepts the stored phone value iff the user typed no digit or at least ten. */
  lemma FooterAcceptsFormattedIffNoneOrTenDigits(value: string)
    ensures FooterPhoneAccepts(FormatPhoneNumber(value)) <==> |DigitsOf(value)| == 0 || |DigitsOf(value)| >= 10
  {
    FormattedIsGroupedIffTenDigits(value);
    FormatShape(value);
  }

  /**
   * The footer's inline onChange formatter: the same steps as
   * FormatPhoneNumber, written as the updates of a local variable.
   */
  method FooterPhoneOnChange(input: string) returns (formattedValue: string)
    ensures formattedValue == FormatPhoneNumber(input)
  {
    var value := DigitsOf(input);
    formattedValue := "";
    if |value| > 0 {
      formattedValue := JsSubstring(value, 0, 3);
    }
    if |value| > 3 {
      formattedValue := formattedValue + " " + JsSubstring(value, 3, 6);
    }
    if |value| > 6 {
      formattedValue := formattedValue + " " + JsSubstring(value, 6, 10);
    }
  }
}
