/** Value types shared by every module: optional values, the outcome of an
    operation that can throw, the token form in which the line scanners
    receive their input, and the decimal integer conversions used on tokens. */
module Common {

  datatype Option<T> = None | Some(value: T)

  /** The exception kinds the modelled code throws. */
  datatype Fault =
    | RangeError                 // ColErr::RangeError
    | LengthError                // std::length_error from the std::string constructor
    | IndexError                 // ColErr::IndexError
    | InContainerError           // ColErr::InContainerError
    | FileError(index: int)      // ColErr::FileError, carrying its index argument
    | InvalidLine                // ColErr::InvalidLine
    | EmptyValue                 // ColErr::EmptyValue

  /** The value of a call that returns something or throws. */
  datatype Result<T> = Ok(value: T) | Fail(fault: Fault)

  /** The end of a call that returns nothing or throws. */
  datatype Outcome = Done | Failed(fault: Fault)

  /** One whitespace-separated token of an input line. `num` holds the value
      when the floating-point reader accepts the whole token, and is `None`
      otherwise; the reader itself is not part of this model. */
  datatype Tok = Tok(text: string, num: Option<real>)

  /** The texts of a token list, in order. */
  function Texts(ts: seq<Tok>): (r: seq<string>)
    ensures |r| == |ts|
    ensures forall i :: 0 <= i < |ts| ==> r[i] == ts[i].text
  {
    if ts == [] then [] else [ts[0].text] + Texts(ts[1..])
  }

  /** `pat` occurs somewhere in `s` (std::string::find does not return npos). */
  predicate Contains(s: string, pat: string)
    decreases |s|
  {
    |pat| <= |s| && (s[..|pat|] == pat || Contains(s[1..], pat))
  }

  /** The index of the first occurrence of `c` in `s`, or |s| when absent. */
  function Find(s: string, c: char): (r: nat)
    ensures r <= |s|
    ensures forall i :: 0 <= i < r ==> s[i] != c
    ensures r < |s| ==> s[r] == c
  {
    if s == [] then 0 else if s[0] == c then 0 else 1 + Find(s[1..], c)
  }

  predicate IsDigit(c: char) { '0' <= c <= '9' }

  predicate AllDigits(s: string) { forall i :: 0 <= i < |s| ==> IsDigit(s[i]) }

  /** The value of a non-empty run of decimal digits. */
  function DigitsValue(s: string): nat
    requires AllDigits(s)
  {
    if s == [] then 0
    else DigitsValue(s[..|s| - 1]) * 10 + (s[|s| - 1] as int - '0' as int)
  }

  /** Integer conversion of a whole token: an optional sign followed by at
      least one digit, and nothing else. */
  function ParseInt(s: string): (r: Option<int>)
    ensures r.Some? ==> |s| > 0
  {
    if |s| > 1 && (s[0] == '-' || s[0] == '+') && AllDigits(s[1..]) then
      var v: int := DigitsValue(s[1..]);
      Some(if s[0] == '-' then -v else v)
    else if |s| > 0 && AllDigits(s) then Some(DigitsValue(s))
    else None
  }

  /** Decimal text of a natural number, without leading zeros. */
  function NatToString(n: nat): (r: string)
    ensures |r| > 0 && AllDigits(r)
    ensures DigitsValue(r) == n
    decreases n
  {
    var d := [('0' as int + n % 10) as char];
    if n < 10 then d
    else
      var r := NatToString(n / 10) + d;
      assert r[..|r| - 1] == NatToString(n / 10);
      r
  }

  /** Decimal text of an integer, as an output string stream writes it. */
  function IntToString(n: int): (r: string)
    ensures |r| > 0
    ensures n < 0 <==> r[0] == '-'
  {
    if n < 0 then "-" + NatToString(-n) else NatToString(n)
  }

  /** The decimal text of an integer converts back to the same integer. */
  lemma ParseIntToString(n: int)
    ensures ParseInt(IntToString(n)) == Some(n)
  {
    if n < 0 {
      assert IntToString(n)[1..] == NatToString(-n);
    }
  }

  /** Different integers have different decimal texts. */
  lemma IntToStringInjective(a: int, b: int)
    requires IntToString(a) == IntToString(b)
    ensures a == b
  {
    ParseIntToString(a);
    ParseIntToString(b);
  }

  /** The longest prefix of `ts` whose tokens all convert to integers, as
      produced by a `while (section(line, n))` loop. */
  function LeadingInts(ts: seq<Tok>): (r: seq<int>)
    ensures |r| <= |ts|
    ensures forall i :: 0 <= i < |r| ==> ParseInt(ts[i].text) == Some(r[i])
    ensures |r| < |ts| ==> ParseInt(ts[|r|].text).None?
  {
    if ts == [] then []
    else match ParseInt(ts[0].text)
      case None => []
      case Some(v) => [v] + LeadingInts(ts[1..])
  }
}
