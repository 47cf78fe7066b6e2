/** The handful of JavaScript semantics the payout worker leans on: values and
    their truthiness, how a value becomes an object key, decimal `toString`
    and `parseInt`, and the two string searches the code uses. */
module Js {

  datatype Option<+T> = None | Some(value: T)

  datatype Result<+T, +E> = Success(value: T) | Failure(error: E)

  /** A JavaScript value as held in a variable or stored in a document field.
      Numbers are integers here: the worker only stores counters, nonces and
      timestamps in them. */
  datatype JsValue = Undefined | Null | Bool(b: bool) | Num(n: int) | Str(s: string)

  /** ToBoolean: the values a condition such as `if (x)` or `while (!x)` treats as true. */
  predicate Truthy(v: JsValue)
  {
    match v
    case Undefined => false
    case Null => false
    case Bool(b) => b
    case Num(n) => n != 0
    case Str(s) => s != ""
  }

  /** A thrown error object: its constructor name and its message. */
  datatype JsError = JsError(name: string, message: string)

  /** `new Error(message)`. */
  function Thrown(message: string): JsError
  {
    JsError("Error", message)
  }

  /** The error of a call made to a scripted node after its script is used
      up: the call times out. */
  const NoReply := "ETIMEDOUT"

  /** A reply script without its first reply. */
  function Rest<T>(s: seq<T>): seq<T>
  {
    if s == [] then [] else s[1..]
  }

  /** `err.toString()` (Error.prototype.toString): the name, then ": " and the
      message when the message is not empty. */
  function ErrorString(e: JsError): string
  {
    if e.message == "" then e.name else e.name + ": " + e.message
  }

  predicate IsDigit(c: char)
  {
    '0' <= c <= '9'
  }

  predicate AllDigits(s: string)
  {
    forall i :: 0 <= i < |s| ==> IsDigit(s[i])
  }

  function DigitChar(d: nat): (c: char)
    requires d < 10
    ensures IsDigit(c) && DigitValue(c) == d
  {
    (('0' as int) + d) as char
  }

  function DigitValue(c: char): nat
    requires IsDigit(c)
  {
    (c as int) - ('0' as int)
  }

  /** `n.toString()` for a non-negative integer: its decimal digits, with no
      leading zero. */
  function NatToDecimal(n: nat): (s: string)
    ensures |s| >= 1 && AllDigits(s)
    ensures s[0] == '0' ==> n == 0
    decreases n
  {
    if n < 10 then [DigitChar(n)] else NatToDecimal(n / 10) + [DigitChar(n % 10)]
  }

  /** `n.toString()` for any integer. */
  function IntToDecimal(n: int): string
  {
    if n < 0 then "-" + NatToDecimal(-n) else NatToDecimal(n)
  }

  /** The number a string of decimal digits denotes. */
  function DigitsValue(s: string): nat
    requires AllDigits(s)
  {
    if s == [] then 0 else DigitsValue(s[..|s| - 1]) * 10 + DigitValue(s[|s| - 1])
  }

  /** The length of the longest run of decimal digits at the start of `s`. */
  function DigitPrefixLength(s: string): (k: nat)
    ensures k <= |s| && AllDigits(s[..k])
    ensures k < |s| ==> !IsDigit(s[k])
  {
    if s == [] || !IsDigit(s[0]) then 0
    else
      var k := 1 + DigitPrefixLength(s[1..]);
      assert s[..k] == [s[0]] + s[1..][..k - 1];
      k
  }

  /** `parseInt(s, 10)` on a string with no leading blank and no sign: the
      value of its leading digits, or NaN (`None`) when it starts with none. */
  function ParseInt(s: string): (r: Option<nat>)
    ensures r.None? <==> (s == [] || !IsDigit(s[0]))
  {
    var k := DigitPrefixLength(s);
    if k == 0 then None else Some(DigitsValue(s[..k]))
  }

  lemma {:induction false} DigitsValueOfDecimal(n: nat)
    ensures DigitsValue(NatToDecimal(n)) == n
    decreases n
  {
    if n >= 10 {
      DigitsValueOfDecimal(n / 10);
      var s := NatToDecimal(n);
      assert s[..|s| - 1] == NatToDecimal(n / 10);
    }
  }

  /** Reading back what `toString` wrote: `parseInt(n.toString(), 10) == n`. */
  lemma {:induction false} ParseIntOfDecimal(n: nat)
    ensures ParseInt(NatToDecimal(n)) == Some(n)
  {
    var s := NatToDecimal(n);
    DigitPrefixAllDigits(s);
    assert s[..|s|] == s;
    DigitsValueOfDecimal(n);
  }

  lemma {:induction false} DigitPrefixAllDigits(s: string)
    requires AllDigits(s)
    ensures DigitPrefixLength(s) == |s|
  {
    if s != [] {
      DigitPrefixAllDigits(s[1..]);
    }
  }

  /** ToPropertyKey: the string under which `obj[v]` stores and finds an entry. */
  function PropertyKey(v: JsValue): (r: string)
    ensures v.Str? ==> r == v.s
    ensures v == Undefined || v == Str("undefined") ==> r == "undefined"
    ensures v.Num? && v.n >= 0 ==> ParseInt(r) == Some(v.n)
  {
    ParseIntOfDecimal(if v.Num? && v.n >= 0 then v.n else 0);
    match v
    case Undefined => "undefined"
    case Null => "null"
    case Bool(b) => if b then "true" else "false"
    case Num(n) => IntToDecimal(n)
    case Str(s) => s
  }

  /** `s.startsWith(prefix)`. */
  predicate StartsWith(s: string, prefix: string)
  {
    |prefix| <= |s| && s[..|prefix|] == prefix
  }

  predicate OccursAt(s: string, sub: string, i: int)
  {
    0 <= i && i + |sub| <= |s| && s[i..i + |sub|] == sub
  }

  /** `s.includes(sub)`. */
  predicate Contains(s: string, sub: string)
  {
    exists i :: 0 <= i <= |s| - |sub| && OccursAt(s, sub, i)
  }
}
