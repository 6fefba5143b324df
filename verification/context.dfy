/**
 * The context translators of src/cpp/context.cpp: the parser that turns a
 * JS property array into a zero-terminated cl_context_properties list,
 * createContext, createContextFromType and getContextInfo.
 */
module Context {
  import opened Native
  import opened Registry
  import opened Js
  import opened Status
  import opened Wrapper
  import opened Results
  import opened ClConst
  import opened Info

  /** The ids whose value the parser reads from the next element as an integer. */
  predicate HandleValued(id: int) {
    id == CL_GL_CONTEXT_KHR || id == CL_WGL_HDC_KHR
  }

  /**
   * The property array can be parsed: wherever an id is CONTEXT_PLATFORM,
   * a platform wrapper follows it. The source unwraps that element without
   * a check, so anything else there is outside what it handles.
   */
  predicate Readable(items: seq<Value>)
    decreases |items|
  {
    items == [] ||
      var id := Uint32Value(items[0]);
      if id == CL_CONTEXT_PLATFORM then |items| >= 2 && items[1].Wrapped? && Readable(items[2..])
      else if HandleValued(id) then |items| < 2 || Readable(items[2..])
      else Readable(items[1..])
  }

  /**
   * The parser loop: each element is read as a uint32 id and appended;
   * CONTEXT_PLATFORM also appends the next element's platform pointer,
   * GL_CONTEXT_KHR and WGL_HDC_KHR the next element as an int64 (0 past
   * the end, where the element is undefined); other ids consume nothing.
   */
  function ParseFrom(items: seq<Value>): (out: seq<int>)
    requires Readable(items)
    decreases |items|
  {
    if items == [] then []
    else
      var id := Uint32Value(items[0]);
      if id == CL_CONTEXT_PLATFORM then [id, As(items[1].h)] + ParseFrom(items[2..])
      else if HandleValued(id) then [id, if |items| >= 2 then Int64Value(items[1]) else 0] + (if |items| >= 2 then ParseFrom(items[2..]) else [])
      else [id] + ParseFrom(items[1..])
  }

  /** The list handed to the driver: the parsed properties and a single 0 terminator. */
  function ParseProperties(items: seq<Value>): (out: seq<int>)
    requires Readable(items)
    ensures |out| >= 1 && out[|out| - 1] == 0
    ensures items == [] ==> out == [0]
  {
    ParseFrom(items) + [0]
  }

  /** A context property as the JS caller means it. */
  datatype Property =
    | Platform(p: Ptr)
    /** GL_CONTEXT_KHR or WGL_HDC_KHR with its handle value */
    | GlHandle(id: nat, value: int)
    /** any other uint32 id, which carries no value the parser reads */
    | Flag(id: nat)

  predicate ValidProperty(q: Property) {
    match q
    case Platform(_) => true
    case GlHandle(id, _) => HandleValued(id)
    case Flag(id) => id < TwoTo32 && id != CL_CONTEXT_PLATFORM && !HandleValued(id)
  }

  /** The JS elements a caller writes for one property. */
  function EncodeOne(q: Property): seq<Value> {
    match q
    case Platform(p) => [Number(CL_CONTEXT_PLATFORM), Wrapped(FromRaw(Legacy, PlatformId, p))]
    case GlHandle(id, v) => [Number(id), Number(v)]
    case Flag(id) => [Number(id)]
  }

  function Encode(qs: seq<Property>): seq<Value> {
    if qs == [] then [] else EncodeOne(qs[0]) + Encode(qs[1..])
  }

  /** The cl_context_properties entries section 4.4 of the OpenCL 1.2 specification expects for one property: its name, then its value if it has one. */
  function NativeOne(q: Property): seq<int> {
    match q
    case Platform(p) => [CL_CONTEXT_PLATFORM, p]
    case GlHandle(id, v) => [id, v]
    case Flag(id) => [id]
  }

  function NativeList(qs: seq<Property>): seq<int> {
    if qs == [] then [] else NativeOne(qs[0]) + NativeList(qs[1..])
  }

  lemma Uint32OfSmall(n: int)
    requires 0 <= n < TwoTo32
    ensures Uint32Value(Number(n)) == n
  {
  }

  /** Parsing the JS encoding of a property list gives the native list of those properties. */
  lemma {:induction false} ParseEncodeRoundTrip(qs: seq<Property>)
    requires forall k :: 0 <= k < |qs| ==> ValidProperty(qs[k])
    ensures Readable(Encode(qs))
    ensures ParseFrom(Encode(qs)) == NativeList(qs)
    decreases |qs|
  {
    if qs != [] {
      var q, rest := qs[0], qs[1..];
      assert forall k :: 0 <= k < |rest| ==> ValidProperty(rest[k]) by {
        forall k | 0 <= k < |rest| ensures ValidProperty(rest[k]) {
          assert rest[k] == qs[k + 1];
        }
      }
      ParseEncodeRoundTrip(rest);
      var items := Encode(qs);
      assert items == EncodeOne(q) + Encode(rest);
      match q
      case Platform(p) =>
        Uint32OfSmall(CL_CONTEXT_PLATFORM);
        assert items[2..] == Encode(rest);
      case GlHandle(id, v) =>
        Uint32OfSmall(id);
        assert items[2..] == Encode(rest);
      case Flag(id) =>
        Uint32OfSmall(id);
        assert items[1..] == Encode(rest);
    }
  }

  /** LET_ARRAY_ARG(0): null or undefined stand for the empty array; anything else but an array throws. */
  predicate PropertiesArg(a: Value) {
    IsEmpty(a) || (a.Array? && Readable(a.items))
  }

  function PropertyItems(a: Value): (items: seq<Value>)
    requires PropertiesArg(a)
    ensures Readable(items)
  {
    if IsEmpty(a) then [] else a.items
  }

  /**
   * createContext: the property list (argument 0, optional), then the
   * device array (argument 1 must be an array of device wrappers), one
   * driver call, CHECK_ERR and the new context wrapped.
   */
  function CreateContext(propsArg: Value, devicesArg: Value, status: int, ctx: Ptr): (r: (Call<Value>, Option<(seq<int>, seq<Ptr>)>))
    requires propsArg.Array? ==> Readable(propsArg.items)
    requires devicesArg.Array? ==> AllWrapped(devicesArg.items)
    ensures !PropertiesArg(propsArg) ==> r == (Threw(ArgType(0, "Array")), None)
    ensures PropertiesArg(propsArg) && !devicesArg.Array? ==> r == (Threw(ArgType(1, "Array")), None)
    ensures r.1.Some? <==> PropertiesArg(propsArg) && devicesArg.Array?
    ensures r.1.Some? ==>
      && r.1.value.0 == ParseProperties(PropertyItems(propsArg))
      && |r.1.value.1| == |devicesArg.items|
      && (forall k :: 0 <= k < |devicesArg.items| ==> r.1.value.1[k] == As(devicesArg.items[k].h))
    ensures IsEmpty(propsArg) && r.1.Some? ==> r.1.value.0 == [0]
    ensures r.0.Returned? <==> r.1.Some? && status == CL_SUCCESS
    ensures r.0.Returned? ==> r.0.value == Wrapped(FromRaw(Legacy, ContextId, ctx))
  {
    if !PropertiesArg(propsArg) then (Threw(ArgType(0, "Array")), None)
    else
      var props := ParseProperties(PropertyItems(propsArg));
      if !devicesArg.Array? then (Threw(ArgType(1, "Array")), None)
      else
        var devices := FromJsArray(devicesArg.items);
        (CheckErr(status, Returned(Wrapped(FromRaw(Legacy, ContextId, ctx)))), Some((props, devices)))
  }

  /**
   * A caller's property list and device wrappers reach clCreateContext as
   * the native zero-terminated list of those properties and the devices'
   * pointers, in order.
   */
  lemma CreateContextPassesThrough(qs: seq<Property>, ps: seq<Ptr>, ctx: Ptr)
    requires forall k :: 0 <= k < |qs| ==> ValidProperty(qs[k])
    ensures Readable(Encode(qs)) && AllWrapped(WrapAll(Legacy, DeviceId, ps))
    ensures CreateContext(Array(Encode(qs)), Array(WrapAll(Legacy, DeviceId, ps)), CL_SUCCESS, ctx) ==
      (Returned(Wrapped(FromRaw(Legacy, ContextId, ctx))), Some((NativeList(qs) + [0], ps)))
  {
    ParseEncodeRoundTrip(qs);
    FromJsArrayWrapAll(Legacy, DeviceId, ps);
    var items := Encode(qs);
    assert PropertiesArg(Array(items)) && PropertyItems(Array(items)) == items;
  }

  /**
   * createContextFromType: the same parser, but argument 0 must be an
   * array here; the device type follows, then one driver call.
   */
  function CreateContextFromType(propsArg: Value, deviceType: nat, status: int, ctx: Ptr): (r: (Call<Value>, Option<(seq<int>, nat)>))
    requires propsArg.Array? ==> Readable(propsArg.items)
    ensures !propsArg.Array? ==> r == (Threw(ArgType(0, "Array")), None)
    ensures propsArg.Array? ==> r.1 == Some((ParseProperties(propsArg.items), deviceType))
    ensures r.0.Returned? <==> propsArg.Array? && status == CL_SUCCESS
    ensures r.0.Returned? ==> r.0.value == Wrapped(FromRaw(Legacy, ContextId, ctx))
  {
    if !propsArg.Array? then (Threw(ArgType(0, "Array")), None)
    else (CheckErr(status, Returned(Wrapped(FromRaw(Legacy, ContextId, ctx)))), Some((ParseProperties(propsArg.items), deviceType)))
  }

  /** Both entry points hand the driver the same list for the same property array. */
  lemma ContextEntryPointsShareParser(items: seq<Value>, devicesArg: Value, deviceType: nat, status: int, ctx: Ptr)
    requires Readable(items) && devicesArg.Array? && AllWrapped(devicesArg.items)
    ensures CreateContext(Array(items), devicesArg, status, ctx).1.value.0 == CreateContextFromType(Array(items), deviceType, status, ctx).1.value.0
  {
  }

  // getContextInfo.

  /** The answer shape of getContextInfo names other than CONTEXT_PROPERTIES. */
  function ContextInfoShape(param: nat): Option<Shape> {
    if param == CL_CONTEXT_REFERENCE_COUNT || param == CL_CONTEXT_NUM_DEVICES then Some(NumberOf)
    else if param == CL_CONTEXT_DEVICES then Some(DevicesOf)
    else None
  }

  /**
   * CONTEXT_PROPERTIES as written: the byte size the driver reports is used
   * as the number of entries, so the array is sizeof(cl_context_properties)
   * times too long; the entries past the ones the driver writes are
   * whatever the fresh allocation held (a parameter here).
   */
  function PropertiesAsWritten(props: seq<nat>, unwritten: seq<nat>): (r: Value)
    requires |unwritten| == PointerSize * |props| - |props|
    ensures r.Array? && |r.items| == PointerSize * |props|
    ensures forall k :: 0 <= k < |props| ==> r.items[k] == Number(props[k])
    ensures forall k :: |props| <= k < |r.items| ==> r.items[k] == Number(unwritten[k - |props|])
  {
    var n := PointerSize * |props|;
    NumbersValue((props + unwritten)[..n])
  }

  /** CONTEXT_PROPERTIES with the byte size divided by the entry size: one number per entry the driver holds. */
  function Properties(props: seq<nat>): (r: Value)
    ensures r.Array? && |r.items| == |props|
    ensures forall k :: 0 <= k < |props| ==> r.items[k] == Number(props[k])
  {
    NumbersValue(props)
  }

  /** As written, a context created with [CONTEXT_PLATFORM, p, 0] reports 24 properties instead of 3. */
  lemma PropertiesAsWrittenOvercounts(props: seq<nat>, unwritten: seq<nat>)
    requires |props| > 0 && |unwritten| == PointerSize * |props| - |props|
    ensures |PropertiesAsWritten(props, unwritten).items| == PointerSize * |props| > |props|
    ensures |Properties(props).items| == |props|
  {
  }

  /**
   * getContextInfo: the context (argument 0), then the switch: the
   * reference and device counts as numbers, the devices retained and
   * wrapped, the property list as written (one number per byte of the list:
   * the driver's entries, then what the allocation held, given as
   * `unwritten`); any other name throws INVALID_VALUE.
   */
  function GetContextInfo(contextArg: Value, param: nat, status: int, answer: Answer, unwritten: seq<nat>, d: Driver): (r: (Call<Value>, Driver))
    requires IsObject(contextArg) ==> contextArg.Wrapped?
    requires ContextInfoShape(param).Some? && status == CL_SUCCESS ==> Fits(ContextInfoShape(param).value, answer)
    requires param == CL_CONTEXT_PROPERTIES && status == CL_SUCCESS ==>
      answer.NumbersAnswer? && |unwritten| == PointerSize * |answer.ns| - |answer.ns|
    ensures !IsObject(contextArg) ==> r == (Threw(ArgType(0, "Object")), d)
    ensures IsObject(contextArg) && param != CL_CONTEXT_PROPERTIES && ContextInfoShape(param).None? ==>
      r == (ThrowErr(CL_INVALID_VALUE), d)
    ensures IsObject(contextArg) && (param == CL_CONTEXT_REFERENCE_COUNT || param == CL_CONTEXT_NUM_DEVICES) && status == CL_SUCCESS ==>
      r == (Returned(Number(answer.n)), d)
    ensures IsObject(contextArg) && param == CL_CONTEXT_PROPERTIES && status == CL_SUCCESS ==>
      && r.1 == d && r.0.Returned? && r.0.value.Array?
      && |r.0.value.items| == PointerSize * |answer.ns|
      && forall k :: 0 <= k < |answer.ns| ==> r.0.value.items[k] == Number(answer.ns[k])
    ensures IsObject(contextArg) && param == CL_CONTEXT_DEVICES && status == CL_SUCCESS ==>
      && (r.0.Returned? <==> forall k :: 0 <= k < |answer.ps| ==> Known(d, Device, answer.ps[k]))
      && (r.0.Returned? ==>
            && r.0.value.Array? && |r.0.value.items| == |answer.ps|
            && (forall k :: 0 <= k < |answer.ps| ==> r.0.value.items[k] == Wrapped(FromRaw(Legacy, DeviceId, answer.ps[k])))
            && r.1.log == d.log + RetainCalls(Device, answer.ps))
    ensures IsObject(contextArg) && status != CL_SUCCESS ==>
      r.0 == ThrowErr(if param == CL_CONTEXT_PROPERTIES || ContextInfoShape(param).Some? then status else CL_INVALID_VALUE)
  {
    var context := ReqClArg(0, contextArg);
    if context.Threw? then (Threw(context.failure), d)
    else if param == CL_CONTEXT_PROPERTIES then
      (if status != CL_SUCCESS then ThrowErr(status) else Returned(PropertiesAsWritten(answer.ns, unwritten)), d)
    else
      if param == CL_CONTEXT_DEVICES && status == CL_SUCCESS then
        DevicesAnswer(Legacy, answer.ps, d);
        Query(Legacy, ContextInfoShape(param), status, answer, d)
      else
        Query(Legacy, ContextInfoShape(param), status, answer, d)
  }
}
