/** The decimal text Java produces when an `int` is concatenated to a string
    (`Integer.toString`), and the parse that recovers the number from it. */
module DecimalText {

  datatype Option<T> = None | Some(value: T)

  const DigitChars: string := "0123456789"

  predicate IsDigit(c: char) {
    '0' <= c <= '9'
  }

  predicate AllDigits(s: string) {
    forall i :: 0 <= i < |s| ==> IsDigit(s[i])
  }

  /** Decimal digits in the form Java writes them: at least one, and a
      leading zero only in "0" itself. */
  predicate CanonicalDigits(d: string) {
    1 <= |d| && AllDigits(d) && (d[0] == '0' ==> d == "0")
  }

  function DigitValue(c: char): (d: nat)
    requires IsDigit(c)
    ensures d < 10 && DigitChars[d] == c
  {
    c as int - '0' as int
  }

  /** The digits of n, most significant first, without leading zeros. */
  function NatToString(n: nat): (s: string)
    ensures CanonicalDigits(s)
    ensures s[0] == '0' <==> n == 0
    decreases n
  {
    if n < 10 then [DigitChars[n]]
    else NatToString(n / 10) + [DigitChars[n % 10]]
  }

  /** `Integer.toString(n)`: a minus sign before the digits of |n| when n is
      negative; zero is the single digit '0' and no other number has a
      leading zero. */
  function IntToString(n: int): (s: string)
    ensures 1 <= |s|
    ensures n < 0 <==> s[0] == '-'
    ensures n < 0 ==> CanonicalDigits(s[1..]) && s[1] != '0'
    ensures 0 <= n ==> CanonicalDigits(s)
    ensures s[0] == '0' <==> n == 0
  {
    if n < 0 then "-" + NatToString(-n) else NatToString(n)
  }

  /** The value of a string of decimal digits, most significant first. */
  function ParseNat(s: string): nat
    requires AllDigits(s)
  {
    if s == [] then 0 else ParseNat(s[..|s| - 1]) * 10 + DigitValue(s[|s| - 1])
  }

  /** Reads an optional minus sign followed by at least one digit; anything
      else is rejected. */
  function ParseInt(s: string): (r: Option<int>)
    ensures r.Some? ==> 1 <= |s|
  {
    if 1 <= |s| && s[0] == '-' then
      if 2 <= |s| && AllDigits(s[1..]) then Some(-(ParseNat(s[1..]) as int)) else None
    else if 1 <= |s| && AllDigits(s) then Some(ParseNat(s))
    else None
  }

  lemma {:induction false} ParseNatToString(n: nat)
    ensures ParseNat(NatToString(n)) == n
    decreases n
  {
    var s := NatToString(n);
    if n >= 10 {
      ParseNatToString(n / 10);
      assert s[..|s| - 1] == NatToString(n / 10);
    }
  }

  /** Reading back the text of any int gives that int. */
  lemma {:induction false} ParseIntToString(n: int)
    ensures ParseInt(IntToString(n)) == Some(n)
  {
    var s := IntToString(n);
    if n < 0 {
      var digits := NatToString(-n);
      ParseNatToString(-n);
      assert s == "-" + digits;
      assert s[1..] == digits;
      assert 2 <= |s| && s[0] == '-' && AllDigits(s[1..]);
    } else {
      ParseNatToString(n);
      assert s == NatToString(n);
      assert s[0] != '-' && AllDigits(s);
    }
  }

  /** Different ints have different texts. */
  lemma IntToStringInjective(m: int, n: int)
    requires IntToString(m) == IntToString(n)
    ensures m == n
  {
    ParseIntToString(m);
    ParseIntToString(n);
  }

  /** f writes every int as text that reads back as that int. */
  ghost predicate IsIntText(f: int -> string) {
    forall n {:trigger ParseInt(f(n))} :: ParseInt(f(n)) == Some(n)
  }

  lemma IntToStringIsIntText()
    ensures IsIntText(IntToString)
  {
    forall n: int
      ensures ParseInt(IntToString(n)) == Some(n)
    {
      ParseIntToString(n);
    }
  }
}
