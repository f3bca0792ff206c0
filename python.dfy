/**
 The small part of Python's built-in behaviour that the task store relies on:
 the scalar values a JSON record can hold, the conversions `int()`, `str()` and
 `bool()` applied to them, `str.strip()`, and list indexing with negative indices.
 */
module Python {

  /** A scalar JSON value as `json.load` hands it to Python: None, bool, int or str. */
  datatype Scalar = Null | Bool(b: bool) | Int(i: int) | Str(s: string)

  /** The exceptions the core can raise. */
  datatype PyError = TypeError | ValueError | AttributeError

  /** An evaluation that either yields a value or raises. */
  datatype Result<T> = Ok(value: T) | Err(error: PyError)

  datatype Option<T> = None | Some(value: T)

  // ---------------------------------------------------------------------
  // Whitespace and str.strip()

  /** The characters for which Python's `str.isspace()` holds. */
  predicate IsSpace(c: char)
  {
    || c == ' ' || c == '\t' || c == '\n' || c == '\r' || c == '\U{000B}' || c == '\U{000C}'
    || ('\U{001C}' <= c <= '\U{001F}') || c == '\U{0085}' || c == '\U{00A0}' || c == '\U{1680}'
    || ('\U{2000}' <= c <= '\U{200A}') || c == '\U{2028}' || c == '\U{2029}' || c == '\U{202F}'
    || c == '\U{205F}' || c == '\U{3000}'
  }

  predicate AllSpace(s: string)
  {
    forall k :: 0 <= k < |s| ==> IsSpace(s[k])
  }

  /** `s.lstrip()`: the longest suffix of `s` that does not start with whitespace. */
  function TrimStart(s: string): (r: string)
    ensures |r| <= |s| && r == s[|s| - |r|..]
    ensures AllSpace(s[..|s| - |r|])
    ensures r != [] ==> !IsSpace(r[0])
  {
    if |s| > 0 && IsSpace(s[0]) then
      var r := TrimStart(s[1..]);
      assert s[1..][..|s| - 1 - |r|] == s[1..|s| - |r|];
      r
    else s
  }

  /** `s.rstrip()`: the longest prefix of `s` that does not end with whitespace. */
  function TrimEnd(s: string): (r: string)
    ensures |r| <= |s| && r == s[..|r|]
    ensures AllSpace(s[|r|..])
    ensures r != [] ==> !IsSpace(r[|r| - 1])
  {
    if |s| > 0 && IsSpace(s[|s| - 1]) then
      var r := TrimEnd(s[..|s| - 1]);
      assert s[..|s| - 1][|r|..] == s[|r|..|s| - 1];
      r
    else s
  }

  /** `s.strip()`: the part of `s` between its leading whitespace (what
      `TrimStart` removes) and its trailing whitespace. Neither end of the
      result is whitespace, so no longer slice has whitespace around it; the
      result is empty exactly when `s` consists of whitespace only. */
  function Strip(s: string): (r: string)
    ensures |r| <= |s|
    ensures |r| <= |TrimStart(s)| && r == TrimStart(s)[..|r|] && AllSpace(TrimStart(s)[|r|..])
    ensures r == [] <==> AllSpace(s)
    ensures r != [] ==> !IsSpace(r[0]) && !IsSpace(r[|r| - 1])
  {
    var t := TrimStart(s);
    var r := TrimEnd(t);
    StripFacts(s, t, r);
    r
  }

  lemma StripFacts(s: string, t: string, r: string)
    requires t == TrimStart(s) && r == TrimEnd(t)
    ensures r == [] <==> AllSpace(s)
    ensures r != [] ==> !IsSpace(r[0])
  {
    var i := |s| - |t|;
    assert t == s[i..];
    if r == [] {
      assert AllSpace(t) by {
        assert t[|r|..] == t;
      }
      assert s == s[..i] + t;
      AllSpaceConcat(s[..i], t);
    } else {
      assert r[0] == t[0] == s[i];
      assert !IsSpace(s[i]);
    }
  }

  lemma AllSpaceConcat(a: string, b: string)
    requires AllSpace(a) && AllSpace(b)
    ensures AllSpace(a + b)
  {
    forall k | 0 <= k < |a + b| ensures IsSpace((a + b)[k]) {
      if k >= |a| { assert (a + b)[k] == b[k - |a|]; }
    }
  }

  lemma {:induction false} StripKeepsTrimmed(s: string)
    requires s == [] || (!IsSpace(s[0]) && !IsSpace(s[|s| - 1]))
    ensures Strip(s) == s
  {
  }

  // ---------------------------------------------------------------------
  // Decimal digits: str(int) and int(str)

  predicate IsDigit(c: char)
  {
    '0' <= c <= '9'
  }

  function DigitChar(d: nat): (c: char)
    requires d < 10
    ensures IsDigit(c) && c as int - '0' as int == d
  {
    ('0' as int + d) as char
  }

  /** The decimal digits of `n`, most significant first, without leading zeros. */
  function NatToDigits(n: nat): (s: string)
    ensures |s| > 0 && IsDigit(s[|s| - 1]) && IsDigit(s[0])
    ensures forall k :: 0 <= k < |s| ==> IsDigit(s[k])
    ensures |s| > 1 ==> s[0] != '0'
  {
    if n < 10 then [DigitChar(n)] else NatToDigits(n / 10) + [DigitChar(n % 10)]
  }

  /** `str(n)` for an int. */
  function IntToString(n: int): (s: string)
    ensures s != [] && !IsSpace(s[0]) && !IsSpace(s[|s| - 1])
  {
    if n < 0 then "-" + NatToDigits(-n) else NatToDigits(n)
  }

  /** A run of decimal digits in which a single underscore may separate two
      digits, read as a number; None when the run is malformed. */
  function ParseDigits(s: string): (r: Option<nat>)
    ensures r.Some? ==> s != [] && IsDigit(s[0]) && IsDigit(s[|s| - 1])
    ensures r.Some? ==> forall k :: 0 <= k < |s| ==> IsDigit(s[k]) || s[k] == '_'
  {
    if |s| == 0 || !IsDigit(s[|s| - 1]) then None
    else
      var d := s[|s| - 1] as int - '0' as int;
      if |s| == 1 then Some(d)
      else
        var init := if s[|s| - 2] == '_' then s[..|s| - 2] else s[..|s| - 1];
        match ParseDigits(init)
        case None => None
        case Some(v) =>
          assert forall k :: 0 <= k < |init| ==> s[k] == init[k];
          Some(v * 10 + d)
  }

  /** The ASCII information separators U+001C..U+001F: `str.isspace()` holds
      for them, but `int()` skips only the ASCII whitespace ` \t\n\v\f\r`
      and the non-ASCII whitespace, so they are not skipped around a numeral. */
  predicate IsSeparator(c: char)
  {
    '\U{001C}' <= c <= '\U{001F}'
  }

  /** The whitespace that `strip()` removes from either end of `s` holds no
      separator, so it is exactly the whitespace `int()` skips. */
  predicate IntPadded(s: string)
  {
    var i := |s| - |TrimStart(s)|;
    var j := i + |Strip(s)|;
    forall k :: 0 <= k < |s| && (k < i || j <= k) ==> !IsSeparator(s[k])
  }

  /** `int(s)` for a str in base 10: surrounding whitespace that `int()` skips,
      an optional sign, then digits with single underscores between them. */
  function ParseDecimal(s: string): (r: Option<int>)
    ensures r.Some? <==>
      (IntPadded(s) &&
       (ParseDigits(Strip(s)).Some? ||
        (Strip(s) != [] && (Strip(s)[0] == '-' || Strip(s)[0] == '+') && ParseDigits(Strip(s)[1..]).Some?)))
    ensures r.Some? && r.value < 0 ==> Strip(s)[0] == '-'
    ensures IntPadded(s) && ParseDigits(Strip(s)).Some? ==> r == Some(ParseDigits(Strip(s)).value)
  {
    var t := Strip(s);
    if !IntPadded(s) then None
    else if t != [] && (t[0] == '-' || t[0] == '+') then
      match ParseDigits(t[1..])
      case None => None
      case Some(v) => var n: int := v; Some(if t[0] == '-' then -n else n)
    else
      match ParseDigits(t)
      case None => None
      case Some(v) => Some(v)
  }

  /** A string with no whitespace at either end has no padding to skip. */
  lemma TrimmedIntPadded(s: string)
    requires s != [] && !IsSpace(s[0]) && !IsSpace(s[|s| - 1])
    ensures Strip(s) == s && IntPadded(s)
  {
    StripKeepsTrimmed(s);
    assert TrimStart(s) == s;
  }

  lemma {:induction false} DigitsRoundTrip(n: nat)
    ensures ParseDigits(NatToDigits(n)) == Some(n)
  {
    if n >= 10 {
      DigitsRoundTrip(n / 10);
      var s := NatToDigits(n);
      var init := NatToDigits(n / 10);
      assert s[..|s| - 1] == init;
      assert s[|s| - 2] == init[|init| - 1];
    }
  }

  /** Reading back what `str` wrote for an int gives that int. */
  lemma {:induction false} DecimalRoundTrip(n: int)
    ensures ParseDecimal(IntToString(n)) == Some(n)
  {
    var s := IntToString(n);
    TrimmedIntPadded(s);
    if n < 0 {
      DigitsRoundTrip(-n);
      assert s[0] == '-' && s[1..] == NatToDigits(-n);
      assert ParseDigits(s[1..]) == Some(-n);
    } else {
      DigitsRoundTrip(n);
      assert ParseDigits(s) == Some(n);
    }
  }

  // ---------------------------------------------------------------------
  // Conversions

  /** `int(v)`: None raises TypeError, a string that is not a decimal numeral
      raises ValueError, a bool is 0 or 1. */
  function PyInt(v: Scalar): (r: Result<int>)
    ensures r.Err? <==> v.Null? || (v.Str? && ParseDecimal(v.s).None?)
    ensures v.Null? ==> r == Err(TypeError)
    ensures v.Str? && r.Err? ==> r.error == ValueError
    ensures v.Int? ==> r == Ok(v.i)
  {
    match v
    case Null => Err(TypeError)
    case Bool(b) => Ok(if b then 1 else 0)
    case Int(i) => Ok(i)
    case Str(s) =>
      match ParseDecimal(s)
      case None => Err(ValueError)
      case Some(n) => Ok(n)
  }

  /** `str(v)`: never raises. */
  function PyStr(v: Scalar): (r: string)
    ensures v.Str? ==> r == v.s
    ensures v.Null? ==> r == "None"
  {
    match v
    case Null => "None"
    case Bool(b) => if b then "True" else "False"
    case Int(i) => IntToString(i)
    case Str(s) => s
  }

  /** `bool(v)`: Python truthiness of a scalar. */
  function PyBool(v: Scalar): (r: bool)
    ensures v.Bool? ==> r == v.b
    ensures v.Null? ==> !r
  {
    match v
    case Null => false
    case Bool(b) => b
    case Int(i) => i != 0
    case Str(s) => s != ""
  }

  /** An int written out by `str` converts back with `int`. */
  lemma IntStrRoundTrip(n: int)
    ensures PyInt(Str(PyStr(Int(n)))) == Ok(n)
  {
    DecimalRoundTrip(n);
  }

  /** A numeral after a U+001C separator: `strip()` removes the separator but
      `int()` does not skip it, so the string is rejected. */
  lemma SeparatorNotSkipped()
    ensures Strip("\U{001C}5") == "5"
    ensures PyInt(Str("\U{001C}5")) == Err(ValueError)
  {
    var s := "\U{001C}5";
    assert TrimStart(s[1..]) == "5";
    assert TrimStart(s) == "5";
    assert !IntPadded(s) by {
      assert IsSeparator(s[0]);
    }
  }

  // ---------------------------------------------------------------------
  // List indexing

  /** The position `xs[i]` or `xs.pop(i)` addresses in a list of length `n`:
      `-n <= i < n`, a negative index counting from the end; None where Python
      raises IndexError. */
  function ListPosition(i: int, n: nat): (r: Option<nat>)
    ensures r.Some? <==> -(n as int) <= i < n
    ensures r.Some? ==> r.value < n
    ensures r.Some? && i >= 0 ==> r.value == i
    ensures r.Some? && i < 0 ==> r.value == n - (-i)
  {
    if 0 <= i < n then Some(i)
    else if -(n as int) <= i < 0 then Some(i + n)
    else None
  }
}
