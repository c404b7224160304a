/**
  The abstract output of the WordprocessingML writer: a tree of namespace-qualified
  elements with ordered attributes. Text emission and escaping are the XML builder's
  business and stay outside this model; what is modelled is which elements are emitted,
  in which order, with which attribute values.
 */
module Xml {

  datatype Option<T> = None | Some(value: T)

  /** One attribute; a sequence of them keeps the order in which they were added. */
  datatype Attr = Attr(name: string, value: string)

  /** An element with its attributes in emission order and its children in emission order. */
  datatype Node = Node(name: string, attrs: seq<Attr>, children: seq<Node>)

  predicate IsDigit(c: char) {
    '0' <= c <= '9'
  }

  predicate AllDigits(s: string) {
    forall i :: 0 <= i < |s| ==> IsDigit(s[i])
  }

  function DigitChar(d: nat): (c: char)
    requires d < 10
    ensures IsDigit(c)
  {
    ('0' as int + d) as char
  }

  function DigitValue(c: char): (d: nat)
    requires IsDigit(c)
    ensures d < 10
  {
    c as int - '0' as int
  }

  /** The decimal spelling of an unsigned integer attribute value (`w:sz="2"`). */
  function Decimal(n: nat): (s: string)
    ensures |s| >= 1 && AllDigits(s)
    ensures n < 10 <==> |s| == 1
    decreases n
  {
    if n < 10 then [DigitChar(n)] else Decimal(n / 10) + [DigitChar(n % 10)]
  }

  /** The value of a non-empty string of decimal digits. */
  function DigitsValue(s: string): nat
    requires |s| >= 1 && AllDigits(s)
    decreases |s|
  {
    if |s| == 1 then DigitValue(s[0])
    else DigitsValue(s[..|s| - 1]) * 10 + DigitValue(s[|s| - 1])
  }

  /** Reads an unsigned decimal attribute value back; anything but digits is refused. */
  function ParseDecimal(s: string): Option<nat> {
    if |s| >= 1 && AllDigits(s) then Some(DigitsValue(s)) else None
  }

  /** Reading a rendered number gives the number back, so distinct sizes render distinctly. */
  lemma {:induction false} DecimalRoundTrip(n: nat)
    ensures ParseDecimal(Decimal(n)) == Some(n)
    decreases n
  {
    if n >= 10 {
      DecimalRoundTrip(n / 10);
      var s := Decimal(n);
      assert s[..|s| - 1] == Decimal(n / 10);
    }
  }
}
