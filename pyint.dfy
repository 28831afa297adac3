/** Python's int() applied to an already stripped string, base 10, ASCII digits. */
module PyInt {
  import opened Wrappers

  predicate IsDigit(c: char) {
    '0' <= c <= '9'
  }

  predicate AllDigits(s: string) {
    forall i :: 0 <= i < |s| ==> IsDigit(s[i])
  }

  /** The digits int() accepts: at least one, with single underscores allowed between digits. */
  predicate IsDigitGroup(s: string) {
    && |s| > 0 && IsDigit(s[0]) && IsDigit(s[|s| - 1])
    && (forall i :: 0 <= i < |s| ==> IsDigit(s[i]) || s[i] == '_')
    && NoDoubledUnderscore(s)
  }

  predicate NoDoubledUnderscore(s: string) {
    |s| < 2 || (!(s[0] == '_' && s[1] == '_') && NoDoubledUnderscore(s[1..]))
  }

  /** The digits of a digit group with the underscores taken out. */
  function DropUnderscores(s: string): (d: string)
    requires forall i :: 0 <= i < |s| ==> IsDigit(s[i]) || s[i] == '_'
    ensures AllDigits(d)
    ensures AllDigits(s) ==> d == s
  {
    if s == [] then []
    else (if s[0] == '_' then [] else [s[0]]) + DropUnderscores(s[1..])
  }

  function DigitValue(c: char): nat
    requires IsDigit(c)
  {
    c as int - '0' as int
  }

  function DigitChar(d: nat): (c: char)
    requires d < 10
    ensures IsDigit(c) && DigitValue(c) == d
  {
    ('0' as int + d) as char
  }

  /** The value of a decimal numeral, read most significant digit first. */
  function DecimalValue(d: string): nat
    requires AllDigits(d)
  {
    if d == [] then 0 else DecimalValue(d[..|d| - 1]) * 10 + DigitValue(d[|d| - 1])
  }

  function ParseUnsigned(s: string): Option<nat> {
    if IsDigitGroup(s) then Some(DecimalValue(DropUnderscores(s))) else None
  }

  /** int(s) for a string with no surrounding whitespace: an optional sign, then a digit group.
      None stands for the ValueError int() raises. */
  function ParseInt(s: string): Option<int> {
    if |s| > 0 && (s[0] == '+' || s[0] == '-') then
      match ParseUnsigned(s[1..])
      case None => None
      case Some(n) =>
        var v: int := if s[0] == '-' then -(n as int) else n;
        Some(v)
    else
      match ParseUnsigned(s)
      case None => None
      case Some(n) => Some(n)
  }

  /** The shortest decimal numeral of n (str(n) for a non-negative int). */
  function Decimal(n: nat): (d: string)
    ensures |d| > 0 && AllDigits(d)
  {
    if n < 10 then [DigitChar(n)] else Decimal(n / 10) + [DigitChar(n % 10)]
  }

  /** str(n) for any int. */
  function ShowInt(n: int): string {
    if n < 0 then "-" + Decimal(-n) else Decimal(n)
  }

  lemma {:induction false} DecimalValueOfDecimal(n: nat)
    ensures DecimalValue(Decimal(n)) == n
  {
    if n >= 10 {
      var d := Decimal(n);
      assert d[..|d| - 1] == Decimal(n / 10);
      DecimalValueOfDecimal(n / 10);
    }
  }

  lemma {:induction false} DigitsHaveNoUnderscores(s: string)
    requires AllDigits(s)
    ensures NoDoubledUnderscore(s)
  {
    if |s| >= 2 {
      DigitsHaveNoUnderscores(s[1..]);
    }
  }

  /** int(str(n)) == n: the parser reads back every numeral str() writes. */
  lemma ParseShowInt(n: int)
    ensures ParseInt(ShowInt(n)) == Some(n)
  {
    var m := if n < 0 then -n else n;
    DecimalValueOfDecimal(m);
    var d := Decimal(m);
    DigitsHaveNoUnderscores(d);
    assert IsDigitGroup(d);
    if n < 0 {
      assert ("-" + d)[1..] == d;
    }
  }

  /** Leading zeros are accepted, as Python's int() accepts them. */
  lemma ParseAcceptsLeadingZero()
    ensures ParseInt("01") == Some(1)
  {
    var s := "01";
    assert AllDigits(s);
    DigitsHaveNoUnderscores(s);
    assert IsDigitGroup(s);
    assert DropUnderscores(s) == s;
    assert s[..1] == "0" && "0"[..0] == [];
    assert DecimalValue(s) == 1;
  }

  /** A leading sign is accepted. */
  lemma ParseAcceptsSign()
    ensures ParseInt("+2") == Some(2)
  {
    assert DropUnderscores("2") == "2";
    assert ("+2")[1..] == "2";
  }

  /** A single underscore between digits is accepted and ignored. */
  lemma ParseAcceptsUnderscore()
    ensures ParseInt("1_0") == Some(10)
  {
    var s := "1_0";
    assert s[1..] == "_0" && "_0"[1..] == "0";
    assert NoDoubledUnderscore(s);
    assert IsDigitGroup(s);
    assert DropUnderscores(s) == "10";
    assert "10"[..1] == "1" && "1"[..0] == [];
    assert DecimalValue("10") == 10;
  }

  /** Empty input, letters, doubled or edge underscores are rejected. */
  lemma ParseRejectsExamples()
    ensures ParseInt("") == None
    ensures ParseInt("a") == None
    ensures ParseInt("1__0") == None
    ensures ParseInt("_1") == None
  {
    assert "1__0"[1..] == "__0";
  }
}
