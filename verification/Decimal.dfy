/**
 Fixed-point numbers as text. `roq::Decimal` is not part of this model; `Format` is what the
 encoder relies on: a sign if negative, at least one digit, and exactly `precision` digits after
 the point, without a point for precision zero.
 */
module Decimal {
  import opened Wrappers
  import opened Search

  /** The number units * 10^-precision. */
  datatype Number = Number(units: int, precision: nat)

  predicate IsDigit(c: char) {
    '0' <= c <= '9'
  }

  function Digit(d: nat): (c: char)
    requires d < 10
    ensures IsDigit(c)
  {
    '0' + d as char
  }

  /** Decimal digits of n, padded with zeros to `width`. */
  function Digits(n: nat, width: nat): (r: string)
    ensures |r| >= width && |r| >= 1
    ensures forall c | c in r :: IsDigit(c)
    decreases n, width
  {
    var rest := if n < 10 && width <= 1 then "" else Digits(n / 10, if width == 0 then 0 else width - 1);
    rest + [Digit(n % 10)]
  }

  function Unsigned(n: nat, precision: nat): string {
    var digits := Digits(n, precision + 1);
    var cut := |digits| - precision;
    if precision == 0 then digits else digits[..cut] + ("." + digits[cut..])
  }

  function Format(x: Number): string {
    if x.units < 0 then "-" + Unsigned(-x.units, x.precision) else Unsigned(x.units, x.precision)
  }

  // --- reading back ---

  function ReadDigits(s: string): Option<nat> {
    if s == "" then Some(0)
    else
      match ReadDigits(s[..|s| - 1])
      case None => None
      case Some(n) =>
        var c := s[|s| - 1];
        if IsDigit(c) then Some(n * 10 + (c as nat - '0' as nat)) else None
  }

  /** Digits, and optionally a point and more digits. */
  function ReadUnsigned(s: string): Option<(nat, nat)> {
    var point := FindFirst(s, '.');
    var fraction := if point < |s| then s[point + 1..] else "";
    if point == 0 || (point < |s| && fraction == "") then None
    else
      match ReadDigits(s[..point] + fraction)
      case None => None
      case Some(n) => Some((n, |fraction|))
  }

  function Parse(s: string): Option<Number> {
    var negative := s != "" && s[0] == '-';
    match ReadUnsigned(if negative then s[1..] else s)
    case None => None
    case Some((n, precision)) =>
      Some(Number(if negative then 0 - n as int else n as int, precision))
  }

  lemma DigitAppended(s: string, n: nat, d: nat)
    requires ReadDigits(s) == Some(n) && d < 10
    ensures ReadDigits(s + [Digit(d)]) == Some(n * 10 + d)
  {
    assert (s + [Digit(d)])[..|s|] == s;
  }

  lemma {:induction false} DigitsRead(n: nat, width: nat)
    ensures ReadDigits(Digits(n, width)) == Some(n)
    decreases n, width
  {
    hide ReadDigits;
    if n < 10 && width <= 1 {
      NoDigitsRead();
      DigitAppended("", 0, n);
      assert Digits(n, width) == "" + [Digit(n)];
    } else {
      var w := if width == 0 then 0 else width - 1;
      var rest := Digits(n / 10, w);
      assert Digits(n, width) == rest + [Digit(n % 10)];
      hide Digits;
      DigitsRead(n / 10, w);
      DigitAppended(rest, n / 10, n % 10);
    }
  }

  lemma NoDigitsRead()
    ensures ReadDigits("") == Some(0)
  {
  }

  /** The first point of a text of digits is the one that was put there. */
  lemma PointFound(a: string, b: string)
    requires forall c | c in a :: IsDigit(c)
    ensures FindFirst(a, '.') == |a| && FindFirst(a + ("." + b), '.') == |a|
  {
    assert forall i :: 0 <= i < |a| ==> a[i] in a;
    assert a[..|a|] == a;
    FirstIs(a, '.', |a|);
    var s := a + ("." + b);
    assert s[..|a|] == a;
    FirstIs(s, '.', |a|);
  }

  lemma PartsRead(a: string, b: string, n: nat)
    requires (forall c | c in a :: IsDigit(c)) && a != "" && ReadDigits(a + b) == Some(n)
    ensures b == "" ==> ReadUnsigned(a) == Some((n, 0))
    ensures b != "" ==> ReadUnsigned(a + ("." + b)) == Some((n, |b|))
  {
    PointFound(a, b);
    hide FindFirst;
    hide ReadDigits;
    var s := a + ("." + b);
    assert a[..|a|] == a && a + "" == a && (b == "" ==> a + b == a);
    assert s[..|a|] == a && s[|a| + 1..] == b;
  }

  /** The digits before and after the point. */
  lemma UnsignedCut(n: nat, precision: nat) returns (a: string, b: string)
    ensures a != "" && (forall c | c in a :: IsDigit(c)) && |b| == precision
    ensures ReadDigits(a + b) == Some(n)
    ensures Unsigned(n, precision) == if precision == 0 then a else a + ("." + b)
  {
    var digits := Digits(n, precision + 1);
    DigitsRead(n, precision + 1);
    hide Digits;
    hide ReadDigits;
    var cut := |digits| - precision;
    a, b := digits[..cut], digits[cut..];
    assert a + b == digits;
    assert forall c | c in a :: c in digits;
  }

  lemma UnsignedReads(n: nat, precision: nat)
    ensures ReadUnsigned(Unsigned(n, precision)) == Some((n, precision))
  {
    var a, b := UnsignedCut(n, precision);
    PartsRead(a, b, n);
    hide ReadUnsigned;
    hide Unsigned;
    hide ReadDigits;
  }

  /** Every number reads back, with its precision. */
  lemma FormatReads(x: Number)
    ensures Parse(Format(x)) == Some(x)
  {
    hide Digits;
    hide ReadUnsigned;
    var n := if x.units < 0 then -x.units else x.units;
    UnsignedReads(n, x.precision);
    if x.units < 0 {
      assert Format(x)[1..] == Unsigned(n, x.precision);
    } else {
      var digits := Digits(n, x.precision + 1);
      assert digits[0] in digits;
      assert Format(x)[0] == digits[0];
    }
  }

  /** A formatted number needs no escaping and holds no comma. */
  lemma FormatIsPlain(x: Number)
    ensures var s := Format(x);
            forall i :: 0 <= i < |s| ==> IsDigit(s[i]) || s[i] == '.' || s[i] == '-'
  {
    hide Unsigned;
    var u := Unsigned(if x.units < 0 then -x.units else x.units, x.precision);
    UnsignedIsPlain(if x.units < 0 then -x.units else x.units, x.precision);
    var s := Format(x);
    assert s == u || s == "-" + u;
  }

  lemma UnsignedIsPlain(n: nat, precision: nat)
    ensures var s := Unsigned(n, precision);
            forall i :: 0 <= i < |s| ==> IsDigit(s[i]) || s[i] == '.'
  {
    hide Digits;
    var digits := Digits(n, precision + 1);
    assert forall i :: 0 <= i < |digits| ==> digits[i] in digits;
  }
}
