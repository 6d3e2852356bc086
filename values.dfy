/** JavaScript values as the renderer sees them: the option bag and the
    caller's data are plain objects whose properties hold these values. */
module Values {

  datatype Option<+T> = None | Some(value: T)

  datatype Result<+T, +E> = Ok(value: T) | Err(error: E)

  /** A JavaScript value stored in an options or data object. An absent
      property (`undefined`) is an absent map key, not a value. */
  datatype Value =
    | Null
    | Bool(b: bool)
    | Num(n: int)
    | Str(s: string)
    | List(items: seq<Value>)

  /** The own enumerable properties of a plain object. */
  type Props = map<string, Value>

  /** JavaScript truthiness: `null`, `false`, `0` and `""` are falsy, every
      array is truthy. */
  predicate Truthy(v: Value) {
    match v
    case Null => false
    case Bool(b) => b
    case Num(n) => n != 0
    case Str(s) => s != ""
    case List(_) => true
  }

  /** Truthiness of `obj[key]`, where a missing key reads as `undefined`. */
  predicate TruthyAt(obj: Props, key: string) {
    key in obj && Truthy(obj[key])
  }

  /** The falsy values are exactly `null`, `false`, `0` and `""`, and a
      property is truthy exactly when it is present and not one of them. */
  lemma FalsyValues(v: Value, obj: Props, key: string)
    ensures !Truthy(v) <==> v == Null || v == Bool(false) || v == Num(0) || v == Str("")
    ensures TruthyAt(obj, key) <==>
      key in obj && obj[key] != Null && obj[key] != Bool(false) && obj[key] != Num(0) && obj[key] != Str("")
  {
  }

  /** `Object.assign(target, source)`: every property of `source` is copied
      onto `target`, so on a shared key the source's value wins. */
  function Assign(target: Props, source: Props): (r: Props)
    ensures r.Keys == target.Keys + source.Keys
    ensures forall k :: k in source ==> r[k] == source[k]
    ensures forall k :: k in target && k !in source ==> r[k] == target[k]
  {
    map k | k in target.Keys + source.Keys :: if k in source then source[k] else target[k]
  }
}
