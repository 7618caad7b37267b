/** Decimal text of integers: PHP's int-to-string conversion (used in string
    interpolation) and the integer literals that the `integer` validation rule
    and PHP's coercion to `int` accept from request input. */
module IntText {
  import opened Json

  predicate IsDigit(c: char) { '0' <= c <= '9' }

  function DigitChar(d: nat): (c: char)
    requires d < 10
    ensures IsDigit(c)
  {
    "0123456789"[d]
  }

  function DigitValue(c: char): (d: nat)
    requires IsDigit(c)
    ensures d < 10 && DigitChar(d) == c
  {
    (c as int - '0' as int)
  }

  /** Decimal digits of a natural number, most significant first, no leading zero. */
  function ShowNat(n: nat): (s: string)
    ensures |s| > 0 && (s[0] == '0' ==> n == 0 && |s| == 1)
    ensures forall i :: 0 <= i < |s| ==> IsDigit(s[i])
    decreases n
  {
    if n < 10 then [DigitChar(n)] else ShowNat(n / 10) + [DigitChar(n % 10)]
  }

  /** `(string)$n` for an integer `$n`. */
  function ShowInt(n: int): (s: string)
    ensures forall i :: 0 <= i < |s| ==> IsDigit(s[i]) || s[i] == '-'
  {
    if n < 0 then "-" + ShowNat(-n) else ShowNat(n)
  }

  /** Value of a string of digits. */
  function DigitsValue(s: string): nat
    requires forall i :: 0 <= i < |s| ==> IsDigit(s[i])
  {
    if |s| == 0 then 0 else 10 * DigitsValue(s[..|s| - 1]) + DigitValue(s[|s| - 1])
  }

  /** Canonical unsigned digits: non-empty, no leading zero unless the whole text is "0". */
  predicate IsCanonicalDigits(s: string) {
    && |s| > 0
    && (forall i :: 0 <= i < |s| ==> IsDigit(s[i]))
    && (s[0] == '0' ==> |s| == 1)
  }

  /** An integer literal: an optional sign followed by canonical digits. */
  function ParseInt(s: string): (r: Option<int>)
    ensures r.Some? ==> |s| > 0
  {
    if |s| > 0 && (s[0] == '-' || s[0] == '+') then
      if IsCanonicalDigits(s[1..]) then
        var v: int := DigitsValue(s[1..]);
        Some(if s[0] == '-' then -v else v)
      else None
    else if IsCanonicalDigits(s) then Some(DigitsValue(s))
    else None
  }

  lemma {:induction false} ShowNatValue(n: nat)
    ensures DigitsValue(ShowNat(n)) == n
    decreases n
  {
    var s := ShowNat(n);
    if n >= 10 {
      ShowNatValue(n / 10);
      assert s[..|s| - 1] == ShowNat(n / 10);
      assert DigitValue(s[|s| - 1]) == n % 10;
    } else {
      assert DigitValue(s[0]) == n;
    }
  }

  /** The text of a natural number is canonical digits of its value. */
  lemma ShowNatCanonical(n: nat)
    ensures IsCanonicalDigits(ShowNat(n)) && DigitsValue(ShowNat(n)) == n
  {
    ShowNatValue(n);
  }

  /** Reading back the text of an integer gives the integer. */
  lemma ParseShowInt(n: int)
    ensures ParseInt(ShowInt(n)) == Some(n)
  {
    if n < 0 {
      ShowNatCanonical(-n);
      var s := ShowInt(n);
      assert s[0] == '-' && s[1..] == ShowNat(-n);
    } else {
      ShowNatCanonical(n);
      assert ShowInt(n)[0] != '-' && ShowInt(n)[0] != '+';
    }
  }

  /** Different integers have different texts. */
  lemma ShowIntInjective(a: int, b: int)
    requires ShowInt(a) == ShowInt(b)
    ensures a == b
  {
    ParseShowInt(a);
    ParseShowInt(b);
  }

  /** Integer text never holds a colon, the separator of the search cache key. */
  lemma ShowIntHasNoColon(n: int)
    ensures ':' !in ShowInt(n)
  {
  }

  /** PHP's `int` is 64 bits wide: `PHP_INT_MIN` and `PHP_INT_MAX`. */
  const MinInt: int := -0x8000_0000_0000_0000
  const MaxInt: int := 0x7FFF_FFFF_FFFF_FFFF

  predicate InInt64(i: int) { MinInt <= i <= MaxInt }

  /** The values a PHP `int` can hold. */
  type Int64 = i: int | InInt64(i)

  /** What an `int` parameter receives from request input: a JSON integer, or
      text the `integer` rule accepts (query-string values are always text),
      provided the value fits in 64 bits; `FILTER_VALIDATE_INT` rejects text
      beyond `PHP_INT_MAX`, and JSON decoding turns such numbers into floats. */
  function AsInt(j: Json): (r: Option<Int64>)
    ensures j.JInt? ==> (r.Some? <==> InInt64(j.i)) && (r.Some? ==> r.value == j.i)
    ensures j.JStr? ==> (r.Some? <==> ParseInt(j.s).Some? && InInt64(ParseInt(j.s).value))
    ensures j.JStr? && r.Some? ==> r.value == ParseInt(j.s).value
    ensures !j.JInt? && !j.JStr? ==> r.None?
  {
    match j
    case JInt(i) => if InInt64(i) then Some(i) else None
    case JStr(s) =>
      (match ParseInt(s)
       case Some(i) => if InInt64(i) then Some(i) else None
       case None => None)
    case _ => None
  }

  /** Text one past `PHP_INT_MAX` is integer text but not an `int`. */
  lemma TextBeyondMaxIntRejected()
    ensures ParseInt(ShowInt(MaxInt + 1)) == Some(MaxInt + 1)
    ensures AsInt(JStr(ShowInt(MaxInt + 1))).None?
  {
    ParseShowInt(MaxInt + 1);
  }

  /** The text of any `int` is read back as that `int`. */
  lemma AsIntShowInt(n: Int64)
    ensures AsInt(JStr(ShowInt(n))) == Some(n)
  {
    ParseShowInt(n);
  }
}
