/**
 * The few JavaScript values the chart code handles: property bags read by key,
 * and the coercion `Number(x)` applied to what is read.
 */
module JsValues {
  import opened Wrappers

  /** What `Number(x)` yields: NaN, or a finite number. */
  datatype Num = NaN | Finite(value: real)

  /** A property value as it arrives from the backend payload. */
  datatype Scalar = Undefined | NumberValue(n: Num) | StringValue(s: string)

  /**
   * The two conversions of the JavaScript runtime the chart relies on:
   * `parse` is `Number(s)` on a string, `show` is `String(n)`, the property key
   * that indexing an object with the number `n` reads.
   */
  datatype Conv = Conv(parse: string -> Num, show: real -> string)

  /** `Number(x)`: undefined is NaN, a number is itself, a string is parsed. */
  function ToNumber(x: Scalar, conv: Conv): Num
  {
    match x
    case Undefined => NaN
    case NumberValue(n) => n
    case StringValue(s) => conv.parse(s)
  }

  /** One own property of an object. */
  datatype Prop = Prop(key: string, value: Scalar)

  /** An object such as `Open_n`, its properties listed in `Object.keys` order. */
  type Props = seq<Prop>

  /** `Object.keys(obj)`. */
  function Keys(obj: Props): seq<string>
  {
    seq(|obj|, i requires 0 <= i < |obj| => obj[i].key)
  }

  /** `obj[key]`: the value stored under `key`, or undefined when there is none. */
  function Get(obj: Props, key: string): (v: Scalar)
    ensures (forall i :: 0 <= i < |obj| ==> obj[i].key != key) ==> v == Undefined
    ensures forall i ::
              (0 <= i < |obj| && obj[i].key == key && (forall j :: 0 <= j < i ==> obj[j].key != key))
              ==> v == obj[i].value
  {
    if obj == [] then Undefined
    else if obj[0].key == key then obj[0].value
    else Get(obj[1..], key)
  }
}
