/**
 * The few pieces of JavaScript value semantics that the server's handlers
 * depend on: properties that may be `undefined`, string truthiness, and the
 * decimal rendering that string concatenation gives a non-negative integer.
 */
module Js {

  /** A value that may be `undefined` (an absent JSON property). */
  datatype Option<+T> = None | Some(value: T)

  /** Truthiness of an optional string: `undefined` and `''` are falsy. */
  predicate Truthy(s: Option<string>)
  {
    s.Some? && s.value != ""
  }

  predicate IsDigit(c: char)
  {
    '0' <= c <= '9'
  }

  function DigitChar(d: nat): (c: char)
    requires d < 10
    ensures IsDigit(c)
  {
    ('0' as int + d) as char
  }

  function DigitValue(c: char): nat
  {
    if IsDigit(c) then c as int - '0' as int else 0
  }

  /**
   * The decimal text of `n`, as `'' + n` produces it for an integer-valued
   * number: only digits, and no leading zero.
   */
  function NumberToString(n: nat): (s: string)
    ensures |s| >= 1
    ensures forall i :: 0 <= i < |s| ==> IsDigit(s[i])
    ensures |s| > 1 ==> s[0] != '0'
    ensures n < 10 <==> |s| == 1
  {
    if n < 10 then [DigitChar(n)] else NumberToString(n / 10) + [DigitChar(n % 10)]
  }

  /** Text as `'' + n` renders a non-negative integer: non-empty, only digits, and no leading zero. */
  predicate DecimalText(s: string)
  {
    && |s| >= 1
    && (forall i :: 0 <= i < |s| ==> IsDigit(s[i]))
    && (|s| > 1 ==> s[0] != '0')
  }

  /** Reads a string of decimal digits back as a number. */
  function ParseDecimal(s: string): nat
  {
    if s == [] then 0 else ParseDecimal(s[..|s| - 1]) * 10 + DigitValue(s[|s| - 1])
  }

  /** Rendering a number and reading it back gives the number. */
  lemma {:induction false} ParseNumberToString(n: nat)
    ensures ParseDecimal(NumberToString(n)) == n
  {
    var s := NumberToString(n);
    if n < 10 {
      assert s[..|s| - 1] == [];
    } else {
      var p := NumberToString(n / 10);
      assert s[..|s| - 1] == p;
      ParseNumberToString(n / 10);
    }
  }

  /** Decimal text is the rendering of the number it reads back as: no other text is. */
  lemma {:induction false} DecimalTextIsRendering(s: string)
    requires DecimalText(s)
    ensures s == NumberToString(ParseDecimal(s))
  {
    var last := s[|s| - 1];
    assert DigitValue(last) < 10 && DigitChar(DigitValue(last)) == last;
    if |s| == 1 {
      assert s[..|s| - 1] == [];
    } else {
      var p := s[..|s| - 1];
      assert p[0] == s[0];
      assert DecimalText(p);
      DecimalTextIsRendering(p);
      var m := ParseDecimal(p);
      assert m >= 1 by {
        if |p| == 1 {
          assert p[..0] == [];
          assert ParseDecimal(p) == DigitValue(p[0]);
        }
      }
      var v := ParseDecimal(s);
      assert v == m * 10 + DigitValue(last);
      assert v / 10 == m && v % 10 == DigitValue(last);
      assert s == p + [last];
    }
  }

  /** Different numbers have different decimal texts. */
  lemma NumberToStringInjective(m: nat, n: nat)
    requires NumberToString(m) == NumberToString(n)
    ensures m == n
  {
    ParseNumberToString(m);
    ParseNumberToString(n);
  }
}
