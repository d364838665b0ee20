/** JavaScript values as far as the library inspects them: what a resolver
    yields or throws, what the state fields hold, and the truthiness test
    that `if (data)` / `if (error)` apply. */
module JsValues {

  datatype Option<T> = None | Some(value: T)

  /** A JavaScript value. Numbers are reals (so -0 and 0 coincide, as they
      do for truthiness); `NaN` is separate because it is falsy yet not 0;
      objects, arrays and functions are all `Obj`, told apart by identity. */
  datatype JsValue =
    | Undefined
    | Null
    | Bool(b: bool)
    | Num(n: real)
    | NaN
    | BigInt(i: int)
    | Str(s: string)
    | Obj(ref: nat)

  /** ECMAScript ToBoolean: the test behind `if (v)`. */
  predicate Truthy(v: JsValue)
  {
    match v
    case Undefined => false
    case Null => false
    case Bool(b) => b
    case Num(n) => n != 0.0
    case NaN => false
    case BigInt(i) => i != 0
    case Str(s) => s != ""
    case Obj(_) => true
  }

  /** The seven falsy values, listed: a reference definition for `Truthy`. */
  lemma FalsyValues(v: JsValue)
    ensures !Truthy(v) <==> v in {Undefined, Null, Bool(false), Num(0.0), NaN, BigInt(0), Str("")}
  {
  }

  /** How an awaited asynchronous call settled: it resolved with a value or
      it threw (rejected with) a value. Anything may be thrown, `undefined`
      included. */
  datatype Outcome = Resolved(value: JsValue) | Thrown(value: JsValue)

  /** The `{ data, error }` record an internal run resolver settles with. */
  datatype RunResult = RunResult(data: JsValue, error: JsValue)

  /** One part of a query key: a literal, or a zero-argument accessor whose
      current value is read whenever the key is hashed. */
  datatype KeyPart = Literal(value: JsValue) | Accessor(id: nat)

  /** `IocasteQueryKey`, a read-only array of parts. Its hash
      (`createQueryKeyHash`) is not defined in this model: every operation
      that hashes takes the hash function as a parameter, `hash: QueryKey ->
      string`, standing for the hash as it evaluates at that instant. No
      property of it (injectivity, join format) is assumed. */
  type QueryKey = seq<KeyPart>
}
