/** Decoded JSON payloads of the HTTP APIs, and Python's `int()` applied to one of their values. */
module Json {
  import opened Wrappers
  import Text

  /** A decoded JSON value. Numbers are integers; floats do not occur in the fields the collectors read. */
  datatype Json =
    | JNull
    | JBool(b: bool)
    | JInt(n: int)
    | JStr(s: string)
    | JArr(items: seq<Json>)
    | JObj(fields: map<string, Json>)

  /** `d.get(key, default)` on a JSON object. */
  function Get(fields: map<string, Json>, key: string, default: Json): (r: Json)
    ensures key in fields ==> r == fields[key]
    ensures key !in fields ==> r == default
  {
    if key in fields then fields[key] else default
  }

  function DigitValue(c: char): (d: nat)
    requires Text.IsDigit(c)
    ensures d < 10
  {
    c as int - '0' as int
  }

  predicate AllDigits(s: string) {
    forall i :: 0 <= i < |s| ==> Text.IsDigit(s[i])
  }

  /** The number a string of decimal digits denotes (most significant digit first). */
  function DigitsValue(s: string): nat
    requires AllDigits(s)
  {
    if s == [] then 0 else DigitsValue(s[..|s| - 1]) * 10 + DigitValue(s[|s| - 1])
  }

  /** `s` without its trailing whitespace. */
  function TrimEnd(s: string): (r: string)
    ensures r <= s
    ensures r == [] || !Text.IsSpace(r[|r| - 1])
  {
    if s != [] && Text.IsSpace(s[|s| - 1]) then TrimEnd(s[..|s| - 1]) else s
  }

  /** `s.strip()` */
  function Strip(s: string): string {
    TrimEnd(s[Text.SkipSpaces(s, 0)..])
  }

  /** Decimal digits in which a single `_` may stand between two digits, as `int()` accepts them. */
  predicate Numeral(s: string) {
    s != [] && forall i :: 0 <= i < |s| ==> Grouped(s, i)
  }

  /** Position `i` of `s` holds a digit, or a `_` with a digit on either side. */
  predicate Grouped(s: string, i: int)
    requires 0 <= i < |s|
  {
    Text.IsDigit(s[i]) || (s[i] == '_' && 0 < i < |s| - 1 && Text.IsDigit(s[i - 1]) && Text.IsDigit(s[i + 1]))
  }

  /** The digits of a numeral, its separators dropped. */
  function NumeralDigits(s: string): (d: string)
    requires Numeral(s)
    ensures d != [] && AllDigits(d)
  {
    var d := Text.RemoveChar(s, '_');
    assert d != [] by {
      Text.RemoveCharMultiset(s, '_');
      assert Grouped(s, 0);
      assert Text.IsDigit(s[0]) && s[0] in multiset(s);
      assert s[0] in multiset(d);
    }
    assert forall i :: 0 <= i < |d| ==> Text.IsDigit(d[i]) by {
      forall i | 0 <= i < |d|
        ensures Text.IsDigit(d[i])
      {
        assert d[i] in d && d[i] != '_';
        assert d[i] in s;
        var j :| 0 <= j < |s| && s[j] == d[i];
        assert Grouped(s, j);
      }
    }
    d
  }

  /**
   * `int(s)` for a string: optional surrounding whitespace, an optional sign and a numeral;
   * anything else is a ValueError, here `None`.
   */
  function ParseInt(s: string): Option<int> {
    var t := Strip(s);
    var negative := t != [] && t[0] == '-';
    var digits := if t != [] && (t[0] == '-' || t[0] == '+') then t[1..] else t;
    if Numeral(digits) then
      var v: int := DigitsValue(NumeralDigits(digits));
      Some(if negative then -v else v)
    else None
  }

  /** A string with no surrounding whitespace is its own strip. */
  lemma StripPlain(s: string)
    requires s != [] && !Text.IsSpace(s[0]) && !Text.IsSpace(s[|s| - 1])
    ensures Strip(s) == s
  {
    assert Text.SkipSpaces(s, 0) == 0;
    assert s[0..] == s;
  }

  /** One `_` between two runs of digits is a digit-group separator: the number is that of the digits alone. */
  lemma SeparatorDropped(a: string, b: string)
    requires a != [] && b != [] && AllDigits(a) && AllDigits(b)
    ensures ParseInt(a + "_" + b).Some? && ParseInt(a + "_" + b) == ParseInt(a + b)
  {
    var t := a + "_" + b;
    var u := a + b;
    SeparatedNumeral(a, b);
    JoinedDigits(a, b);
    ParseNumeral(t);
    assert Numeral(u);
    ParseNumeral(u);
    NoSeparator(u);
  }

  /** A numeral with nothing around it parses to the number of its digits. */
  lemma ParseNumeral(s: string)
    requires Numeral(s)
    ensures ParseInt(s) == Some(DigitsValue(NumeralDigits(s)))
  {
    assert Grouped(s, 0) && Grouped(s, |s| - 1);
    StripPlain(s);
  }

  lemma SeparatedNumeral(a: string, b: string)
    requires a != [] && b != [] && AllDigits(a) && AllDigits(b)
    ensures var t := a + "_" + b;
      Numeral(t) && Text.RemoveChar(t, '_') == a + b && t[0] == a[0] && t[|t| - 1] == b[|b| - 1]
  {
    var t := a + "_" + b;
    assert t[|a|] == '_';
    forall i | 0 <= i < |t|
      ensures Text.IsDigit(t[i]) || (t[i] == '_' && 0 < i < |t| - 1 && Text.IsDigit(t[i - 1]) && Text.IsDigit(t[i + 1]))
    {
      if i < |a| {
        assert t[i] == a[i];
      } else if i > |a| {
        assert t[i] == b[i - |a| - 1];
      } else {
        assert t[i - 1] == a[i - 1] && t[i + 1] == b[0];
      }
    }
    SeparatorRemoved(a, b);
  }

  lemma SeparatorRemoved(a: string, b: string)
    requires AllDigits(a) && AllDigits(b)
    ensures Text.RemoveChar(a + "_" + b, '_') == a + b
  {
    SeparatorSplit(a, b);
    SeparatorLast(a);
    NoSeparator(a);
    NoSeparator(b);
  }

  lemma SeparatorSplit(a: string, b: string)
    ensures Text.RemoveChar(a + "_" + b, '_') == Text.RemoveChar(a + "_", '_') + Text.RemoveChar(b, '_')
  {
    Text.RemoveCharAppend(a + "_", b, '_');
  }

  lemma SeparatorLast(a: string)
    ensures Text.RemoveChar(a + "_", '_') == Text.RemoveChar(a, '_')
  {
    Text.RemoveCharAppend(a, "_", '_');
    Text.RemoveCharSingle('_', '_');
  }

  lemma JoinedDigits(a: string, b: string)
    requires a != [] && b != [] && AllDigits(a) && AllDigits(b)
    ensures var u := a + b; AllDigits(u) && u[0] == a[0] && u[|u| - 1] == b[|b| - 1]
  {
    var u := a + b;
    forall i | 0 <= i < |u|
      ensures Text.IsDigit(u[i])
    {
      if i < |a| {
        assert u[i] == a[i];
      } else {
        assert u[i] == b[i - |a|];
      }
    }
  }

  /** Decimal digits hold no separator, so dropping separators leaves them alone. */
  lemma NoSeparator(s: string)
    requires AllDigits(s)
    ensures Text.RemoveChar(s, '_') == s
  {
    assert '_' !in s by {
      forall i | 0 <= i < |s|
        ensures s[i] != '_'
      {
        assert Text.IsDigit(s[i]);
      }
    }
    Text.RemoveCharAbsent(s, '_');
  }

  /** A doubled or a trailing `_` is a ValueError. */
  lemma SeparatorRefused()
    ensures ParseInt("1__000") == None
    ensures ParseInt("1000_") == None
  {
    StripPlain("1__000");
    assert !Grouped("1__000", 1);
    StripPlain("1000_");
    assert !Grouped("1000_", 4);
  }

  /** `int(x)` on a JSON value: integers and booleans convert, numeric strings are parsed, the rest raise. */
  function ToInt(j: Json): Option<int> {
    match j
    case JInt(n) => Some(n)
    case JBool(b) => Some(if b then 1 else 0)
    case JStr(s) => ParseInt(s)
    case _ => None
  }

  function DigitChar(d: nat): (c: char)
    requires d < 10
    ensures Text.IsDigit(c) && DigitValue(c) == d
  {
    ('0' as int + d) as char
  }

  /** `str(n)` for a natural number. */
  function Decimal(n: nat): (s: string)
    ensures s != [] && AllDigits(s)
  {
    if n < 10 then [DigitChar(n)] else Decimal(n / 10) + [DigitChar(n % 10)]
  }

  /** `int(str(n)) == n`: parsing undoes the decimal rendering of a natural number. */
  lemma {:induction false} ParseDecimal(n: nat)
    ensures ParseInt(Decimal(n)) == Some(n)
  {
    var s := Decimal(n);
    DecimalValue(n);
    StripPlain(s);
    assert s[0] != '-' && s[0] != '+';
    assert Numeral(s);
    NoSeparator(s);
  }

  lemma {:induction false} DecimalValue(n: nat)
    ensures DigitsValue(Decimal(n)) == n
  {
    if n >= 10 {
      DecimalValue(n / 10);
      var s := Decimal(n);
      assert s[..|s| - 1] == Decimal(n / 10);
    }
  }
}
