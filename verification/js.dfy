/**
 * The JavaScript values that reach the binding, and the conversions it
 * applies to them (Int32Value, Uint32Value, Int64Value, truthiness, the
 * null/undefined test of IS_ARG_EMPTY) together with getPtrAndLen of
 * src/cpp/common.cpp.
 *
 * Numbers are integers here: the binding only ever reads them through an
 * integer conversion, except where it passes a double on to the driver,
 * which this model does not look into.
 */
module Js {
  import opened Native
  import opened Registry
  import opened Results

  datatype Value =
    | Undefined
    | Null
    | Bool(b: bool)
    | Number(n: int)
    | Str(s: string)
    | Array(items: seq<Value>)
    /** A plain object: its own enumerable properties. */
    | Object(fields: map<string, Value>)
    | Function
    /** A napi external holding a raw pointer. */
    | External(ptr: Ptr)
    /** A typed array, an ArrayBuffer or a Node Buffer over host memory. */
    | TypedArray(data: Ptr, byteLength: nat)
    | ArrayBuffer(data: Ptr, byteLength: nat)
    | NodeBuffer(data: Ptr, byteLength: nat)
    /** A JS object made by the wrapper class around a native handle. */
    | Wrapped(h: Handle)

  /** IS_ARG_EMPTY: the argument is undefined or null. */
  predicate IsEmpty(v: Value) {
    v.Undefined? || v.Null?
  }

  /** IsObject of node-addon-api: everything but the primitives and externals. */
  predicate IsObject(v: Value) {
    v.Array? || v.Object? || v.Function? || v.TypedArray? || v.ArrayBuffer? || v.NodeBuffer? || v.Wrapped?
  }

  /** Object::Has: the object has its own property `key`. */
  predicate Has(v: Value, key: string) {
    v.Object? && key in v.fields
  }

  /** Object::Get: the property's value, undefined when it is missing. */
  function Get(v: Value, key: string): (r: Value)
    ensures Has(v, key) ==> r == v.fields[key]
    ensures !Has(v, key) ==> r == Undefined
  {
    if Has(v, key) then v.fields[key] else Undefined
  }

  /** ECMAScript ToBoolean, as ToBoolean().Value() reads it. */
  predicate Truthy(v: Value) {
    match v
    case Undefined => false
    case Null => false
    case Bool(b) => b
    case Number(n) => n != 0
    case Str(s) => s != []
    case _ => true
  }

  /**
   * The integer the engine reads from a value before truncating it to a
   * fixed width: the number itself, 1 or 0 for booleans, 0 for null,
   * undefined and everything that converts to NaN.
   */
  function IntegerOf(v: Value): int {
    match v
    case Number(n) => n
    case Bool(b) => if b then 1 else 0
    case _ => 0
  }

  const TwoTo32: int := 0x1_0000_0000
  const TwoTo31: int := 0x8000_0000

  /** Uint32Value: the integer reduced modulo 2^32. */
  function Uint32Value(v: Value): (r: int)
    ensures 0 <= r < TwoTo32
    ensures (r - IntegerOf(v)) % TwoTo32 == 0
  {
    IntegerOf(v) % TwoTo32
  }

  /** Int32Value: the integer reduced modulo 2^32 into the signed range. */
  function Int32Value(v: Value): (r: int)
    ensures -TwoTo31 <= r < TwoTo31
    ensures (r - IntegerOf(v)) % TwoTo32 == 0
    ensures -TwoTo31 <= IntegerOf(v) < TwoTo31 ==> r == IntegerOf(v)
  {
    (IntegerOf(v) + TwoTo31) % TwoTo32 - TwoTo31
  }

  /** Int64Value on the integers this model carries. */
  function Int64Value(v: Value): int {
    IntegerOf(v)
  }

  /** True for the values getPtrAndLen reads host memory from. */
  predicate HoldsBytes(v: Value) {
    v.TypedArray? || v.ArrayBuffer? || v.NodeBuffer?
  }

  /**
   * getPtrAndLen: the data pointer and byte length of a typed array, an
   * ArrayBuffer or a Buffer; the null pointer for anything else. The length
   * is reported only when the caller asked for it.
   */
  function GetPtrAndLen(v: Value, wantLen: bool): (r: (Ptr, Option<nat>))
    ensures !HoldsBytes(v) ==> r.0 == NULL
    ensures HoldsBytes(v) ==> r.0 == v.data
    ensures r.1.Some? <==> wantLen
    ensures wantLen ==> r.1.value == (if HoldsBytes(v) then v.byteLength else 0)
  {
    var ptr := if HoldsBytes(v) then v.data else NULL;
    var len := if HoldsBytes(v) then v.byteLength else 0;
    (ptr, if wantLen then Some(len) else None)
  }

  /** A JS array is not host memory: its data pointer reads as null. */
  lemma PlainArrayHasNoData(items: seq<Value>, wantLen: bool)
    ensures GetPtrAndLen(Array(items), wantLen).0 == NULL
  {
  }
}
