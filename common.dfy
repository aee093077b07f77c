/** Shared vocabulary of the model: failure-compatible wrappers, the
    errors the synchronisation can raise, PHP scalar values as they appear
    in Eloquent attributes and PHP arrays, and decimal rendering of
    integers (used both by PHP string interpolation and by json_encode). */
module Common {

  datatype Option<+T> = None | Some(value: T)

  datatype Result<+T, +E> = Success(value: T) | Failure(error: E)

  /** The exceptions that can escape the synchronisation code. */
  datatype Error =
    | RemoteNotFound(idOrKey: string)   // the remote service answered "no such project"
    | MissingSnapshot                   // a null remote project was used as an object
    | UndefinedIndex(name: string)      // an array offset that is not there was read
    | UniqueViolation(column: string)   // the database refused a save
    | ReconcileFailed(code: int)        // a child createOrUpdateFromJira threw

  /** A PHP scalar: the value of an Eloquent attribute or of an array element. */
  datatype Value = Null | Bool(b: bool) | Int(i: int) | Str(s: string)

  /** An associative PHP array with string keys, in insertion order. A PHP
      array cannot hold a key twice; this type can, and `Element` then reads
      the first entry with that key. */
  type Attributes = seq<(string, Value)>

  /** `$a[k]`: the value stored under `k`, if the key is present. */
  function Element(a: Attributes, k: string): (r: Option<Value>)
    ensures r.Some? <==> exists i :: 0 <= i < |a| && a[i].0 == k
    ensures r.Some? ==> exists i :: 0 <= i < |a| && a[i] == (k, r.value)
  {
    if |a| == 0 then None
    else if a[0].0 == k then Some(a[0].1)
    else
      var r := Element(a[1..], k);
      assert forall i :: 0 < i < |a| ==> a[i] == a[1..][i - 1];
      r
  }

  /** PHP's `isset($a[k])`: the key is present and its value is not null. */
  predicate IsSet(a: Attributes, k: string)
  {
    Element(a, k).Some? && Element(a, k).value != Null
  }

  predicate IsDigit(c: char)
  {
    '0' <= c <= '9'
  }

  predicate AllDigits(s: string)
  {
    forall i :: 0 <= i < |s| ==> IsDigit(s[i])
  }

  function DigitChar(d: nat): (c: char)
    requires d < 10
    ensures IsDigit(c) && c as int - '0' as int == d
  {
    ('0' as int + d) as char
  }

  /** The number a string of decimal digits denotes. */
  function DigitsValue(s: string): nat
    requires AllDigits(s)
  {
    if |s| == 0 then 0
    else DigitsValue(s[..|s| - 1]) * 10 + (s[|s| - 1] as int - '0' as int)
  }

  /** The shortest decimal rendering of a natural number. */
  function NatDigits(n: nat): (r: string)
    ensures |r| > 0 && AllDigits(r)
    ensures |r| > 1 ==> r[0] != '0'
    decreases n
  {
    if n < 10 then [DigitChar(n)] else NatDigits(n / 10) + [DigitChar(n % 10)]
  }

  lemma {:induction false} NatDigitsValue(n: nat)
    ensures DigitsValue(NatDigits(n)) == n
    decreases n
  {
    if n >= 10 {
      var r := NatDigits(n);
      assert r[..|r| - 1] == NatDigits(n / 10);
      NatDigitsValue(n / 10);
    }
  }

  /** PHP's decimal rendering of an integer: a minus sign, then the digits. */
  function IntDecimal(i: int): string
  {
    if i < 0 then "-" + NatDigits(-i) else NatDigits(i)
  }

  /** PHP string conversion, as done by interpolation `"{$v}"`:
      null and false become "", true becomes "1". */
  function ToStr(v: Value): (r: string)
    ensures v.Str? ==> r == v.s
    ensures v == Null || v == Bool(false) ==> r == ""
    ensures v.Int? ==> |r| > 0
  {
    match v
    case Null => ""
    case Bool(b) => if b then "1" else ""
    case Int(i) => IntDecimal(i)
    case Str(s) => s
  }

  /** Interpolating an integer writes its value: a minus sign exactly when
      it is negative, then digits denoting its magnitude. */
  lemma {:induction false} IntInterpolation(i: int)
    ensures i >= 0 ==> AllDigits(ToStr(Int(i))) && DigitsValue(ToStr(Int(i))) == i
    ensures i < 0 ==>
      var r := ToStr(Int(i));
      |r| > 1 && r[0] == '-' && AllDigits(r[1..]) && DigitsValue(r[1..]) == -i
  {
    if i >= 0 {
      NatDigitsValue(i);
    } else {
      NatDigitsValue(-i);
      assert ToStr(Int(i))[1..] == NatDigits(-i);
    }
  }
}
