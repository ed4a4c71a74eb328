/**
 * Text helpers the Java code relies on: `String.isBlank`, the decimal
 * rendering of an `int` (`i + ""`), and an abstract rendering and parsing of
 * `double` values (`d + ""` and `Double.parseDouble`).
 */
module Text {
  import opened Wrappers

  /** `Character.isWhitespace`: the Unicode space separators other than the
      no-break spaces, the line and paragraph separators, and the ASCII
      control characters tab, line feed, vertical tab, form feed, carriage
      return and the four information separators. */
  predicate IsWhitespace(c: char) {
    || c == ' ' || c == '\t' || c == '\n' || c == '\r'
    || c == '\U{000B}' || c == '\U{000C}'
    || ('\U{001C}' <= c <= '\U{001F}')
    || c == '\U{1680}'
    || ('\U{2000}' <= c <= '\U{2006}')
    || ('\U{2008}' <= c <= '\U{200A}')
    || c == '\U{2028}' || c == '\U{2029}'
    || c == '\U{205F}' || c == '\U{3000}'
  }

  /** `String.isBlank`: empty, or whitespace only. */
  predicate IsBlank(s: string) {
    forall i :: 0 <= i < |s| ==> IsWhitespace(s[i])
  }

  /** A Java `String` reference that is null or blank: the guard
      `s == null || s.isBlank()` used throughout the style code. */
  predicate NullOrBlank(s: Option<string>) {
    s.None? || IsBlank(s.value)
  }

  lemma BlackIsNotBlank()
    ensures !IsBlank("black")
  {
    assert !IsWhitespace("black"[0]);
  }

  lemma ArialIsNotBlank()
    ensures !IsBlank("Arial")
  {
    assert !IsWhitespace("Arial"[0]);
  }

  /** The decimal digit for `d`. */
  function Digit(d: nat): char
    requires d < 10
  {
    "0123456789"[d]
  }

  /** Decimal digits of a natural number, most significant first. */
  function NatToString(n: nat): (s: string)
    ensures |s| >= 1
    ensures n >= 10 ==> |s| >= 2
    ensures n < 10 ==> s == [Digit(n)]
    ensures forall i :: 0 <= i < |s| ==> '0' <= s[i] <= '9'
    decreases n
  {
    if n < 10 then [Digit(n)] else NatToString(n / 10) + [Digit(n % 10)]
  }

  /** `Integer.toString`, which is what `i + ""` produces for an `int`. */
  function IntToString(i: int): (s: string)
    ensures |s| >= 1
    ensures i < 0 <==> s[0] == '-'
  {
    if i < 0 then "-" + NatToString(-i) else NatToString(i)
  }

  /** The rendering of an `int` is `"0"` exactly for zero, and it is never
      blank: the two facts the border-radius round trip depends on. */
  lemma {:induction false} IntToStringZero(i: int)
    ensures IntToString(i) == "0" <==> i == 0
    ensures !IsBlank(IntToString(i))
  {
    var s := IntToString(i);
    if i < 0 {
      assert s[0] == '-';
    } else {
      assert '0' <= s[0] <= '9';
      if 0 < i < 10 {
        assert s == [Digit(i)];
        assert s[0] != '0';
      }
    }
    assert !IsWhitespace(s[0]);
  }

  /**
   * Java's conversions between `double` and text, kept abstract: `format` is
   * `d + ""` (`Double.toString`) and `parse` is `Double.parseDouble`, `None`
   * standing for the `NumberFormatException` it throws. `isDouble` tells the
   * reals a Java `double` can hold (finitely many) from the rest.
   */
  datatype DoubleText = DoubleText(format: real -> string, parse: string -> Option<real>, isDouble: real -> bool)

  /** What the style round trips need of Java's conversions, and what
      `Double.toString` and `Double.parseDouble` guarantee for finite doubles:
      for every double, parsing the rendering gives the value back, the
      rendering is `"0.0"` exactly for zero, it is never `"0"` and never
      blank; whatever parses is a double, and so are the style defaults
      0.0, 1.0, 5.0 and 14.0. */
  ghost predicate Faithful(t: DoubleText) {
    && (forall d | t.isDouble(d) :: t.parse(t.format(d)) == Some(d))
    && (forall d | t.isDouble(d) :: t.format(d) == "0.0" <==> d == 0.0)
    && (forall d | t.isDouble(d) :: t.format(d) != "0" && !IsBlank(t.format(d)))
    && (forall s | t.parse(s).Some? :: t.isDouble(t.parse(s).value))
    && t.isDouble(0.0) && t.isDouble(1.0) && t.isDouble(5.0) && t.isDouble(14.0)
  }

  /** A conversion pair over the four doubles 0.0, 1.0, 5.0 and 14.0, rendered
      as Java renders them: it shows `Faithful` can be met. */
  function SmallDoubleText(): (t: DoubleText)
    ensures t.isDouble(1.0) && t.format(1.0) == "1.0" && t.parse("1.0") == Some(1.0)
    ensures !t.isDouble(0.5) && t.parse("0.5") == None
  {
    DoubleText(
      d => if d == 0.0 then "0.0" else if d == 1.0 then "1.0" else if d == 5.0 then "5.0" else if d == 14.0 then "14.0" else "NaN",
      s => if s == "0.0" then Some(0.0) else if s == "1.0" then Some(1.0) else if s == "5.0" then Some(5.0) else if s == "14.0" then Some(14.0) else None,
      d => d == 0.0 || d == 1.0 || d == 5.0 || d == 14.0)
  }

  lemma SmallDoubleTextIsFaithful()
    ensures Faithful(SmallDoubleText())
  {
    SmallRoundTrip();
    SmallRendering();
  }

  /** `SmallDoubleText` parses its renderings back, and parses only doubles. */
  lemma SmallRoundTrip()
    ensures var t := SmallDoubleText();
      && (forall d | t.isDouble(d) :: t.parse(t.format(d)) == Some(d))
      && (forall s | t.parse(s).Some? :: t.isDouble(t.parse(s).value))
  {
  }

  /** `SmallDoubleText` renders zero alone as `"0.0"`, never `"0"`, never blank. */
  lemma SmallRendering()
    ensures var t := SmallDoubleText();
      && (forall d | t.isDouble(d) :: t.format(d) == "0.0" <==> d == 0.0)
      && (forall d | t.isDouble(d) :: t.format(d) != "0" && !IsBlank(t.format(d)))
  {
    var t := SmallDoubleText();
    assert "0.0" != "1.0" && "0.0" != "5.0" && "0.0" != "14.0";
    forall d | t.isDouble(d) ensures !IsBlank(t.format(d)) {
      assert !IsWhitespace(t.format(d)[0]);
    }
  }
}
