/** The few Python built-ins that the chord maker relies on, with their exact
    edge cases: indexing and slicing with negative positions, `int()` of a
    decimal string, `str()` of an int, and `int()` of a true division, which
    truncates toward zero. Errors that Python raises become `Err` values. */
module PyCore {

  datatype Option<+T> = None | Some(value: T)

  /** The exceptions the chord maker can raise. */
  datatype PyError = IndexError | ValueError

  datatype Result<+T> = Ok(value: T) | Err(error: PyError)

  /** The position that Python's `xs[i]` designates in a sequence of length `n`,
      or None when Python raises IndexError. */
  function PyIndex(i: int, n: nat): (r: Option<nat>)
    ensures r.Some? <==> -(n as int) <= i < n
    ensures r.Some? ==> r.value < n
    ensures r.Some? && i >= 0 ==> r.value == i
    ensures r.Some? && i < 0 ==> r.value == n + i
  {
    if 0 <= i < n then Some(i) else if -(n as int) <= i < 0 then Some(n + i) else None
  }

  /** Python's `s[i]` on a string. */
  function PyAt(s: string, i: int): (r: Result<char>)
    ensures r.Err? <==> (i >= |s| || i < -|s|)
    ensures r.Err? ==> r.error == IndexError
    ensures r.Ok? && i >= 0 ==> r.value == s[i]
    ensures r.Ok? && i < 0 ==> r.value == s[|s| + i]
  {
    match PyIndex(i, |s|)
    case Some(k) => Ok(s[k])
    case None => Err(IndexError)
  }

  /** The bound a slice position stands for in a string of length `n`:
      a negative one counts from the end, and both are clamped to [0, n]. */
  function SliceBound(i: int, n: nat): (b: nat)
    ensures b <= n
    ensures 0 <= i <= n ==> b == i
    ensures -(n as int) <= i < 0 ==> b == n + i
    ensures i > n ==> b == n
    ensures i < -(n as int) ==> b == 0
  {
    if i < 0 then (if n + i < 0 then 0 else n + i) else if i > n then n else i
  }

  /** Python's `s[lo:hi]`; it never raises. */
  function PySlice(s: string, lo: int, hi: int): (r: string)
    ensures SliceBound(lo, |s|) + |r| <= |s|
    ensures |r| == (if SliceBound(lo, |s|) < SliceBound(hi, |s|)
                    then SliceBound(hi, |s|) - SliceBound(lo, |s|) else 0)
    ensures forall j :: 0 <= j < |r| ==> r[j] == s[SliceBound(lo, |s|) + j]
  {
    var a, b := SliceBound(lo, |s|), SliceBound(hi, |s|);
    if a < b then s[a..b] else ""
  }

  /** `s[0:-k]` drops the last `k` characters: what remains followed by those
      characters is `s` again, and a string shorter than `k` gives "". */
  lemma DropSuffix(s: string, k: nat)
    requires k >= 1
    ensures |s| >= k ==> PySlice(s, 0, -(k as int)) + s[|s| - k..] == s
    ensures |s| < k ==> PySlice(s, 0, -(k as int)) == ""
  {
    if |s| >= k {
      assert PySlice(s, 0, -(k as int)) == s[..|s| - k];
    }
  }

  /** `int(x / 2)` for an int `x`: the true quotient truncated toward zero.
      (Floating-point rounding for |x| beyond 2^53 is not modelled.) */
  function TruncHalf(x: int): (q: int)
    ensures x >= 0 ==> 0 <= 2 * q <= x < 2 * q + 2
    ensures x < 0 ==> 2 * q - 2 < x <= 2 * q <= 0
  {
    if x >= 0 then x / 2 else -((-x) / 2)
  }

  predicate IsDigit(c: char) {
    '0' <= c <= '9'
  }

  predicate AllDigits(s: string) {
    forall i :: 0 <= i < |s| ==> IsDigit(s[i])
  }

  /** A decimal numeral as `str()` writes it: at least one digit, and no
      leading zero unless the numeral is "0". */
  predicate Canonical(s: string) {
    |s| >= 1 && AllDigits(s) && (s[0] == '0' ==> |s| == 1)
  }

  function DigitValue(c: char): nat
    requires IsDigit(c)
  {
    (c as int) - ('0' as int)
  }

  function DigitChar(d: nat): (c: char)
    requires d < 10
    ensures IsDigit(c) && DigitValue(c) == d
  {
    ('0' as int + d) as char
  }

  /** The value of a string of decimal digits, most significant first. */
  function DigitsValue(s: string): (v: nat)
    requires AllDigits(s)
    ensures |s| == 1 ==> v == DigitValue(s[0])
  {
    if s == [] then 0 else DigitsValue(s[..|s| - 1]) * 10 + DigitValue(s[|s| - 1])
  }

  /** Python's `str(n)` for a natural number. */
  function NatToDecimal(n: nat): (s: string)
    ensures Canonical(s)
    ensures n >= 1 ==> s[0] != '0'
    ensures n < 10 <==> |s| == 1
  {
    if n < 10 then [DigitChar(n)] else NatToDecimal(n / 10) + [DigitChar(n % 10)]
  }

  /** Python's `str(i)` for an int: a minus sign before the digits of |i|. */
  function IntToDecimal(i: int): (s: string)
    ensures |s| >= 1
    ensures i < 0 <==> s[0] == '-'
    ensures i >= 0 ==> Canonical(s)
    ensures i < 0 ==> Canonical(s[1..])
  {
    if i < 0 then "-" + NatToDecimal(-i) else NatToDecimal(i)
  }

  /** Python's `int(s)` on a string: an optional sign followed by one or more
      ASCII digits; anything else raises ValueError. */
  function PyInt(s: string): (r: Result<int>)
    ensures r.Ok? <==> (|s| >= 1 && AllDigits(s)) ||
                       (|s| >= 2 && (s[0] == '-' || s[0] == '+') && AllDigits(s[1..]))
    ensures r.Err? ==> r.error == ValueError
    ensures |s| >= 1 && AllDigits(s) ==> r == Ok(DigitsValue(s))
    ensures |s| >= 2 && s[0] == '+' && AllDigits(s[1..]) ==> r == Ok(DigitsValue(s[1..]))
    ensures |s| >= 2 && s[0] == '-' && AllDigits(s[1..]) ==> r == Ok(-(DigitsValue(s[1..]) as int))
  {
    if |s| >= 1 && (s[0] == '-' || s[0] == '+') then
      var body := s[1..];
      if |body| >= 1 && AllDigits(body) then
        Ok(if s[0] == '-' then -(DigitsValue(body) as int) else DigitsValue(body))
      else Err(ValueError)
    else if |s| >= 1 && AllDigits(s) then Ok(DigitsValue(s))
    else Err(ValueError)
  }

  /** Reading back what `str()` wrote gives the number again. */
  lemma {:induction false} DecimalRoundTrip(n: nat)
    ensures DigitsValue(NatToDecimal(n)) == n
  {
    var s := NatToDecimal(n);
    if n >= 10 {
      DecimalRoundTrip(n / 10);
      assert s[..|s| - 1] == NatToDecimal(n / 10);
      assert DigitValue(s[|s| - 1]) == n % 10;
    } else {
      assert s == [DigitChar(n)];
      assert s[..|s| - 1] == [];
    }
  }

  /** A digit string with a nonzero leading digit stands for a positive value. */
  lemma {:induction false} LeadingDigitPositive(s: string)
    requires |s| >= 1 && AllDigits(s) && s[0] != '0'
    ensures DigitsValue(s) >= 1
  {
    if |s| > 1 {
      var p := s[..|s| - 1];
      assert p[0] == s[0];
      LeadingDigitPositive(p);
    }
  }

  /** Writing out the value of a numeral in canonical form gives the numeral again. */
  lemma {:induction false} DigitsRoundTrip(s: string)
    requires Canonical(s)
    ensures NatToDecimal(DigitsValue(s)) == s
  {
    var p := s[..|s| - 1];
    var n := DigitsValue(s);
    if |s| == 1 {
      assert p == [];
      assert DigitsValue(p) == 0;
      assert n == DigitValue(s[0]);
      assert [DigitChar(n)] == s;
    } else {
      assert p[0] == s[0];
      assert AllDigits(p);
      LeadingDigitPositive(p);
      DigitsRoundTrip(p);
      assert n / 10 == DigitsValue(p) && n % 10 == DigitValue(s[|s| - 1]);
      assert NatToDecimal(n) == NatToDecimal(n / 10) + [DigitChar(n % 10)];
      assert s == p + [s[|s| - 1]];
    }
  }

  /** `int(str(i)) == i` for every int. */
  lemma PyIntOfDecimal(i: int)
    ensures PyInt(IntToDecimal(i)) == Ok(i)
  {
    if i < 0 {
      var d := NatToDecimal(-i);
      assert ("-" + d)[1..] == d;
      DecimalRoundTrip(-i);
    } else {
      DecimalRoundTrip(i);
    }
  }

  /** `str(int(s)) == s` for a canonical numeral. */
  lemma DecimalOfPyInt(s: string)
    requires Canonical(s)
    ensures PyInt(s).Ok? && PyInt(s).value >= 0 && IntToDecimal(PyInt(s).value) == s
  {
    DigitsRoundTrip(s);
  }
}
