/** JavaScript values as far as the work queue looks at them, and the
    success/failure results its callbacks report. */
module Values {

  /** A JavaScript value. Object contents are opaque: `Obj(ref)` stands for
      one object identity. */
  datatype Value = Undefined | Null | Bool(b: bool) | Str(s: string) | Num(n: int) | Obj(ref: nat)

  /** The fresh `{}` the backend uses for missing headers and payloads. */
  const EmptyObject: Value := Obj(0)

  /** JavaScript truthiness: what `if (v)` and `v || d` test. */
  predicate Truthy(v: Value) {
    match v
    case Undefined => false
    case Null => false
    case Bool(b) => b
    case Str(s) => s != ""
    case Num(n) => n != 0
    case Obj(_) => true
  }

  /** `v || d`. */
  function OrElse(v: Value, d: Value): (r: Value)
    ensures Truthy(v) ==> r == v
    ensures !Truthy(v) ==> r == d
  {
    if Truthy(v) then v else d
  }

  predicate IsDigit(c: char) {
    '0' <= c <= '9'
  }

  predicate AllDigits(s: string) {
    forall i :: 0 <= i < |s| ==> IsDigit(s[i])
  }

  function Digit(d: nat): (c: char)
    requires d < 10
    ensures IsDigit(c)
  {
    ('0' as int + d) as char
  }

  function DigitValue(c: char): nat
    requires IsDigit(c)
  {
    c as int - '0' as int
  }

  /** Decimal notation of a natural number, as template literals print it. */
  function DecimalText(n: nat): (r: string)
    ensures |r| > 0 && AllDigits(r)
    decreases n
  {
    if n < 10 then [Digit(n)] else DecimalText(n / 10) + [Digit(n % 10)]
  }

  /** The value of a string of decimal digits; the partner of DecimalText. */
  function ParseDecimal(s: string): nat
    requires AllDigits(s)
  {
    if s == [] then 0 else ParseDecimal(s[..|s| - 1]) * 10 + DigitValue(s[|s| - 1])
  }

  lemma {:induction false} DecimalRoundTrip(n: nat)
    ensures ParseDecimal(DecimalText(n)) == n
    decreases n
  {
    var s := DecimalText(n);
    if n >= 10 {
      assert s[..|s| - 1] == DecimalText(n / 10);
      DecimalRoundTrip(n / 10);
    }
  }

  /** String conversion inside a template literal (`${v}`). */
  function ToText(v: Value): string {
    match v
    case Undefined => "undefined"
    case Null => "null"
    case Bool(b) => if b then "true" else "false"
    case Str(s) => s
    case Num(n) => if n >= 0 then DecimalText(n) else "-" + DecimalText(-n)
    case Obj(_) => "[object Object]"
  }

  datatype Option<T> = None | Some(value: T)

  /** Error conditions reported through callbacks or thrown. */
  datatype Error =
    | NoStore                          // constructing a Wrkr without `options.store`
    | DuplicateHandler(event: string)  // a second handler for one event name
    | NotImplemented                   // unsubscribe
    | NotAFunction(member: string)     // calling a member the store does not define
    | MissingEventName                 // emit of an event without `name`
    | NotConnected                     // using the store's models or connection before start
    | ConnectionError                  // the connection could not be opened
    | HandlerError(ref: nat)           // an application handler reported an error

  datatype Outcome = Ok | Fail(error: Error)

  datatype Result<T> = Success(value: T) | Failure(error: Error)

  /** What became of a callback handed to asynchronous code: it was called
      with an outcome, it was never called, or the code threw instead. */
  datatype Reply = Called(outcome: Outcome) | NoCallback | Threw(error: Error)
}
