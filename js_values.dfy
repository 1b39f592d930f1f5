/**
 * The JavaScript values the dismissal manager's sync layer works with:
 * plain objects (student and class records, request bodies), property
 * reads, truthiness, object spread, the two equality operators and the
 * number-to-string conversion used when ids and URLs are built.
 */
module JsValues {

  datatype Option<T> = None | Some(value: T) {
    function GetOr(default: T): T {
      match this
      case Some(v) => v
      case None => default
    }
  }

  datatype Result<T, E> = Ok(value: T) | Err(error: E)

  /** A JSON-like value. Numbers are integers in this model. */
  datatype Value =
    | Undefined
    | Null
    | Bool(b: bool)
    | Num(n: int)
    | Str(s: string)
    | List(items: seq<Value>)
    | Object(fields: map<string, Value>)

  /** A plain object: a student, a class group, a request or reply body. */
  type Record = map<string, Value>

  /** ToBoolean: exactly these values are falsy (NaN and -0 are not modelled). */
  predicate Falsy(v: Value) {
    v == Undefined || v == Null || v == Bool(false) || v == Num(0) || v == Str("")
  }

  /** Reading `r.k`: a missing property reads as undefined. */
  function Get(r: Record, k: string): Value {
    if k in r then r[k] else Undefined
  }

  /** Object spread `{...a, ...b}`: every property of `b`, then the rest of `a`. */
  function Spread(a: Record, b: Record): (r: Record)
    ensures r.Keys == a.Keys + b.Keys
    ensures forall k :: k in b ==> Get(r, k) == b[k]
    ensures forall k :: k !in b ==> Get(r, k) == Get(a, k)
  {
    a + b
  }

  /** `===` and `==` as the sync code uses them on ids. */
  datatype Equality = Strict | Loose

  predicate Nullish(v: Value) {
    v == Undefined || v == Null
  }

  /**
   * Both operators compare the modelled values structurally; loose
   * equality also identifies null with undefined.
   */
  predicate Equal(eq: Equality, a: Value, b: Value) {
    a == b || (eq == Loose && Nullish(a) && Nullish(b))
  }

  lemma StrictImpliesLoose(a: Value, b: Value)
    ensures Equal(Strict, a, b) ==> Equal(Loose, a, b)
  {
  }

  function DigitChar(d: nat): (c: char)
    requires d < 10
    ensures '0' <= c <= '9'
  {
    "0123456789"[d]
  }

  function DigitValue(c: char): nat {
    if '0' <= c <= '9' then (c - '0') as nat else 0
  }

  predicate IsDigits(s: string) {
    forall i :: 0 <= i < |s| ==> '0' <= s[i] <= '9'
  }

  /** `String(n)` for a non-negative integer: decimal digits, no leading zero. */
  function NumberToString(n: nat): (s: string)
    ensures |s| >= 1 && IsDigits(s)
    ensures s[0] == '0' ==> n == 0
    decreases n
  {
    if n < 10 then [DigitChar(n)] else NumberToString(n / 10) + [DigitChar(n % 10)]
  }

  /** The number a string of decimal digits denotes. */
  function DigitsValue(s: string): nat {
    if s == [] then 0 else 10 * DigitsValue(s[..|s| - 1]) + DigitValue(s[|s| - 1])
  }

  /** NumberToString loses nothing: the digits read back as the number. */
  lemma {:induction false} NumberToStringRoundTrip(n: nat)
    ensures DigitsValue(NumberToString(n)) == n
    decreases n
  {
    var s := NumberToString(n);
    if n < 10 {
      assert s[..|s| - 1] == [];
    } else {
      NumberToStringRoundTrip(n / 10);
      assert s[..|s| - 1] == NumberToString(n / 10);
      assert DigitValue(DigitChar(n % 10)) == n % 10;
    }
  }

  /** Hence two different clock readings never give the same digits. */
  lemma NumberToStringInjective(m: nat, n: nat)
    requires NumberToString(m) == NumberToString(n)
    ensures m == n
  {
    NumberToStringRoundTrip(m);
    NumberToStringRoundTrip(n);
  }
}
