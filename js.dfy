/**
 * JavaScript values as the node handles them, and the few pieces of
 * JavaScript semantics its code relies on: truthiness, `a || b`,
 * property access with and without `?.`, object spread and thrown errors.
 */
module Js {

  datatype Option<+T> = None | Some(value: T)

  /** A value or the error a JavaScript `throw` would carry. */
  datatype Result<+T> = Ok(value: T) | Err(error: JsError) {
    predicate IsFailure() { Err? }
    function PropagateFailure<U>(): Result<U>
      requires Err?
    {
      Err(error)
    }
    function Extract(): T
      requires Ok?
    {
      value
    }
  }

  /**
   * A JavaScript value. Numbers are reals: NaN and the infinities are not
   * values of this type.
   */
  datatype Json =
    | Undefined
    | Null
    | Bool(b: bool)
    | Num(n: real)
    | Str(s: string)
    | Arr(elems: seq<Json>)
    | Obj(fields: map<string, Json>)

  /** The own enumerable properties of a plain object. */
  type Object = map<string, Json>

  /** Which constructor threw. */
  datatype ErrorKind =
    | NodeOperationError
    | PlainError
    | TypeError
    | RangeError
    | ApiError

  /**
   * A thrown error: its `message` and its `response` (Undefined unless the
   * SDK's HTTP layer attached one).
   */
  datatype JsError = JsError(kind: ErrorKind, message: string, response: Json)

  function Throw(kind: ErrorKind, message: string): JsError {
    JsError(kind, message, Undefined)
  }

  predicate Nullish(v: Json) {
    v.Undefined? || v.Null?
  }

  /** `!!v` */
  predicate Truthy(v: Json) {
    match v
    case Undefined => false
    case Null => false
    case Bool(b) => b
    case Num(n) => n != 0.0
    case Str(s) => s != ""
    case Arr(_) => true
    case Obj(_) => true
  }

  /** `a || b` */
  function Or(a: Json, b: Json): (r: Json)
    ensures Truthy(a) ==> r == a
    ensures !Truthy(a) ==> r == b
  {
    if Truthy(a) then a else b
  }

  /**
   * `v?.k`. Only own properties of plain objects are found: none of the
   * names the node reads is inherited from a built-in prototype.
   */
  function OptionalGet(v: Json, k: string): (r: Json)
    ensures !v.Obj? ==> r == Undefined
    ensures v.Obj? && k in v.fields ==> r == v.fields[k]
    ensures v.Obj? && k !in v.fields ==> r == Undefined
  {
    if v.Obj? && k in v.fields then v.fields[k] else Undefined
  }

  /** `v.k`: reading a property of null or undefined throws a TypeError. */
  function Member(v: Json, k: string): (r: Result<Json>)
    ensures r.Err? <==> Nullish(v)
    ensures r.Err? ==> r.error.kind == TypeError
    ensures r.Ok? ==> r.value == OptionalGet(v, k)
  {
    if Nullish(v) then Err(Throw(TypeError, "Cannot read properties of " + (if v.Null? then "null" else "undefined") + " (reading '" + k + "')"))
    else Ok(OptionalGet(v, k))
  }

  /**
   * The properties `{...v}` copies. Spreading null, undefined, a boolean or
   * a number copies nothing; strings and arrays are spread as if they had
   * no index keys (see README).
   */
  function SpreadOf(v: Json): (r: Object)
    ensures v.Obj? ==> r == v.fields
    ensures !v.Obj? ==> r == map[]
  {
    if v.Obj? then v.fields else map[]
  }

  /**
   * `{...base, ...over}`: every key of either object, the right-hand value
   * winning on a key both have.
   */
  function Merge(base: Object, over: Object): (r: Object)
    ensures r.Keys == base.Keys + over.Keys
    ensures forall k :: k in over ==> r[k] == over[k]
    ensures forall k :: k in base && k !in over ==> r[k] == base[k]
  {
    base + over
  }

  /**
   * The position of the first truthy value of `cands`, the meaning of a
   * chain `c0 || c1 || ...`.
   */
  function FirstTruthy(cands: seq<Json>): (r: Option<nat>)
    ensures r.Some? ==> r.value < |cands| && Truthy(cands[r.value])
    ensures r.Some? ==> forall j :: 0 <= j < r.value ==> !Truthy(cands[j])
    ensures r.None? <==> forall j :: 0 <= j < |cands| ==> !Truthy(cands[j])
  {
    if cands == [] then None
    else if Truthy(cands[0]) then Some(0)
    else match FirstTruthy(cands[1..])
      case None => None
      case Some(k) => Some(k + 1)
  }

  /** `c0 || c1 || ... || fallback` */
  function OrChain(cands: seq<Json>, fallback: Json): (r: Json)
  {
    match FirstTruthy(cands)
    case Some(k) => cands[k]
    case None => fallback
  }

  /** A chain of `||` picks its first truthy operand, else its last one. */
  lemma OrChainPicksFirstTruthy(cands: seq<Json>, fallback: Json)
    ensures (exists k :: 0 <= k < |cands| && Truthy(cands[k])) ==>
              exists k :: 0 <= k < |cands| && Truthy(cands[k]) && OrChain(cands, fallback) == cands[k]
                && forall j :: 0 <= j < k ==> !Truthy(cands[j])
    ensures (forall j :: 0 <= j < |cands| ==> !Truthy(cands[j])) ==> OrChain(cands, fallback) == fallback
  {
    var f := FirstTruthy(cands);
    if f.Some? {
      assert Truthy(cands[f.value]) && OrChain(cands, fallback) == cands[f.value];
    }
  }
}
