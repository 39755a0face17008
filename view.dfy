/**
 * Rendered views as styled text. The styling library is outside the model:
 * a styled run is kept as its attribute list and text rather than as escape
 * codes, a line break as NewLine, and a cursor move as CursorLeft.
 */
module View {
  /** The styling attributes the widgets apply, in the order they apply them. */
  datatype Attr = Bold | FgGreen | FgRed | FgCyan | FgBrightBlack | FgBrightCyan

  datatype Segment =
    | Text(text: string)
    | Styled(attrs: seq<Attr>, text: string)
    | NewLine
    | CursorLeft(columns: int)

  /** Whitespace as the platform's character classes define it. */
  predicate IsWhitespace(c: char) {
    c == ' ' || c == '\t' || c == '\n' || c == '\r' || c == '\U{B}' || c == '\U{C}'
    || ('\U{1C}' <= c <= '\U{1F}') || c == '\U{A0}' || c == '\U{1680}'
    || ('\U{2000}' <= c <= '\U{200A}') || c == '\U{2028}' || c == '\U{2029}'
    || c == '\U{202F}' || c == '\U{205F}' || c == '\U{3000}'
  }

  /** A string is blank when it is empty or only whitespace. */
  predicate IsBlank(s: string) {
    forall i :: 0 <= i < |s| ==> IsWhitespace(s[i])
  }

  /** The line a view opens with: the question mark, a space, the message
      in bold and another space. */
  function Header(questionMark: Segment, message: string): seq<Segment> {
    [questionMark, Text(" "), Styled([Bold], message), Text(" ")]
  }

  function DigitChar(d: int): (c: char)
    requires 0 <= d < 10
    ensures '0' <= c <= '9' && DigitValue(c) == d
  {
    ('0' as int + d) as char
  }

  /** The value of a decimal digit. */
  function DigitValue(c: char): int {
    c as int - '0' as int
  }

  /** The number a string of decimal digits denotes, read most significant
      digit first. */
  function DigitsValue(s: string): int
    decreases |s|
  {
    if s == [] then 0 else DigitsValue(s[..|s| - 1]) * 10 + DigitValue(s[|s| - 1])
  }

  /** The decimal form of a natural number: digits only, no leading zero
      but for 0 itself, denoting n. */
  function NatToString(n: nat): (s: string)
    ensures |s| >= 1
    ensures forall i :: 0 <= i < |s| ==> '0' <= s[i] <= '9'
    ensures s[0] == '0' ==> n == 0
    ensures DigitsValue(s) == n
    decreases n
  {
    if n < 10 then
      var s := [DigitChar(n)];
      assert s[..0] == [];
      s
    else
      var p := NatToString(n / 10);
      var s := p + [DigitChar(n % 10)];
      assert s[..|s| - 1] == p;
      s
  }

  /** The decimal form of an integer, as string templates print it: a minus
      sign exactly for negative numbers, then the digits of the magnitude. */
  function IntToString(n: int): (s: string)
    ensures |s| >= 1
    ensures (s[0] == '-') <==> n < 0
    ensures var digits := if n < 0 then s[1..] else s;
      && |digits| >= 1
      && (forall i :: 0 <= i < |digits| ==> '0' <= digits[i] <= '9')
      && DigitsValue(digits) == (if n < 0 then -n else n)
  {
    if n < 0 then
      var d := NatToString(-n);
      assert ("-" + d)[1..] == d;
      "-" + d
    else NatToString(n)
  }

  /** Strings joined with a separator between neighbours. */
  function Join(parts: seq<string>, separator: string): (s: string)
    ensures parts == [] ==> s == ""
    ensures |parts| == 1 ==> s == parts[0]
  {
    if parts == [] then ""
    else if |parts| == 1 then parts[0]
    else parts[0] + separator + Join(parts[1..], separator)
  }

  /** Joining is the same as appending the parts one at a time, each after a
      separator but the first. */
  lemma {:induction false} JoinSnoc(parts: seq<string>, p: string, separator: string)
    requires parts != []
    ensures Join(parts + [p], separator) == Join(parts, separator) + separator + p
    decreases |parts|
  {
    if |parts| >= 2 {
      assert (parts + [p])[1..] == parts[1..] + [p];
      JoinSnoc(parts[1..], p, separator);
    }
  }

  /** Joining two non-empty runs of parts puts one separator between the
      joined runs. */
  lemma {:induction false} JoinAppend(a: seq<string>, b: seq<string>, separator: string)
    requires a != [] && b != []
    ensures Join(a + b, separator) == Join(a, separator) + separator + Join(b, separator)
    decreases |a|
  {
    if |a| == 1 {
      assert (a + b)[1..] == b;
    } else {
      assert (a + b)[1..] == a[1..] + b;
      JoinAppend(a[1..], b, separator);
    }
  }

}
