/** The JSON values a request body can carry, as the request handler sees them after
    `express.json()`: JavaScript truthiness, `toString()` of a list entry, the `length`
    read by the empty-list check and the `for ... of` iteration over the recipient list.
    Numbers are integers here. */
module JsValues {
  import opened Results
  import opened Text

  datatype JsValue =
    | Undefined          // a field the body does not have
    | Null
    | Bool(b: bool)
    | Num(n: int)
    | Str(s: string)
    | Arr(items: seq<JsValue>)
    | Obj                // any object other than an array

  /** JavaScript truthiness: `!!v`. Arrays and objects are truthy even when empty. */
  predicate Truthy(v: JsValue) {
    match v
    case Undefined => false
    case Null => false
    case Bool(b) => b
    case Num(n) => n != 0
    case Str(s) => s != ""
    case Arr(_) => true
    case Obj => true
  }

  function DigitChar(d: nat): (c: char)
    requires d < 10
    ensures IsDigit(c)
  {
    ['0', '1', '2', '3', '4', '5', '6', '7', '8', '9'][d]
  }

  /** The decimal numeral of `n`, most significant digit first. */
  function Decimal(n: nat): (r: string)
    ensures |r| > 0 && AllDigits(r)
    ensures r[0] == '0' ==> n == 0
  {
    if n < 10 then [DigitChar(n)] else Decimal(n / 10) + [DigitChar(n % 10)]
  }

  /** The number a digit string denotes. */
  function DecimalValue(s: string): nat
    requires AllDigits(s)
  {
    if s == [] then 0 else 10 * DecimalValue(s[..|s| - 1]) + (s[|s| - 1] as int - '0' as int)
  }

  /** Reading the numeral back gives the number: `Decimal` loses nothing. */
  lemma {:induction false} DecimalRoundTrip(n: nat)
    ensures DecimalValue(Decimal(n)) == n
  {
    var r := Decimal(n);
    if n >= 10 {
      DecimalRoundTrip(n / 10);
      assert r[..|r| - 1] == Decimal(n / 10);
    }
  }

  /** What `Array.prototype.join(",")` writes for one element: nothing for null and undefined. */
  function JoinPart(v: JsValue): string
    decreases v, 2
  {
    if v.Undefined? || v.Null? then "" else Display(v)
  }

  function Join(items: seq<JsValue>, bound: JsValue): string
    requires forall i :: 0 <= i < |items| ==> items[i] < bound
    decreases bound, 0, |items|
  {
    if items == [] then ""
    else if |items| == 1 then JoinPart(items[0])
    else JoinPart(items[0]) + "," + Join(items[1..], bound)
  }

  /** `v.toString()` for a value that has the method (everything but null and undefined). */
  function Display(v: JsValue): string
    decreases v, 1
  {
    match v
    case Undefined => ""
    case Null => ""
    case Bool(b) => if b then "true" else "false"
    case Num(n) => if n < 0 then "-" + Decimal(-n) else Decimal(n)
    case Str(s) => s
    case Arr(items) => Join(items, v)
    case Obj => "[object Object]"
  }

  /** `v.toString()`: a TypeError for null and undefined, the string otherwise. */
  function ToString(v: JsValue): (r: Result<string, string>)
    ensures r.Err? <==> v.Null? || v.Undefined?
    ensures v.Str? ==> r == Ok(v.s)
    ensures v.Num? && v.n >= 0 ==> r == Ok(Decimal(v.n))
    ensures v.Num? && v.n < 0 ==> r == Ok("-" + Decimal(-v.n))
  {
    match v
    case Undefined => Err("Cannot read properties of undefined (reading 'toString')")
    case Null => Err("Cannot read properties of null (reading 'toString')")
    case _ => Ok(Display(v))
  }

  /** `v.length === 0`; values without a `length` (numbers, booleans, objects) are never 0. */
  predicate LengthIsZero(v: JsValue) {
    (v.Arr? && |v.items| == 0) || (v.Str? && |v.s| == 0)
  }

  /** The values `for (let x of v)` visits: the elements of an array, the characters of a
      string; anything else throws a TypeError that names the iterated variable. */
  function Iterate(v: JsValue, name: string): (r: Result<seq<JsValue>, string>)
    ensures v.Arr? ==> r == Ok(v.items)
    ensures v.Str? ==> r.Ok? && |r.value| == |v.s|
    ensures v.Str? ==> forall i :: 0 <= i < |v.s| ==> r.value[i] == Str([v.s[i]])
    ensures !v.Arr? && !v.Str? ==> r.Err?
  {
    match v
    case Arr(items) => Ok(items)
    case Str(s) => Ok(seq(|s|, i requires 0 <= i < |s| => Str([s[i]])))
    case _ => Err(name + " is not iterable")
  }
}
