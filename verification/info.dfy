/**
 * The common pattern of the get*Info translators: a switch on the parameter
 * name picks how the driver's answer becomes a JS value, an unknown name
 * throws INVALID_VALUE without asking the driver, a failing query throws its
 * status, and a handle in the answer is retained before it is wrapped.
 *
 * The parameter tables of the individual translators live with them
 * (Device, Kernel, Program, Memobj, Event, Context); this module holds what
 * they share.
 */
module Info {
  import opened Native
  import opened Registry
  import opened Js
  import opened Status
  import opened Wrapper
  import opened Results
  import opened ClConst
  import Split64

  /** How a translator presents the answer for one parameter. */
  datatype Shape =
    /** a NUL-terminated string, returned as a JS string */
    | TextOf
    /** a cl_uint, cl_int, size_t or bitfield, returned as a number */
    | NumberOf
    /** a cl_bool, returned as true exactly when it equals CL_TRUE */
    | FlagOf
    /** a cl_ulong, returned as [hi, lo] */
    | HalvesOf
    /** an array of size_t, returned as an array of numbers */
    | NumbersOf
    /** one handle, first retained as an object of class `retain` when that is given; a null pointer gives JS null when `nullable` holds */
    | HandleOf(t: RawType, retain: Option<ClObject>, nullable: bool)
    /** a device list whose byte size is divided by the pointer size; each device is retained, then wrapped */
    | DevicesOf
    /** an image format, returned as an object with its channel order and data type */
    | FormatOf
    /** program binaries, returned as one ArrayBuffer per device */
    | BlobsOf

  /** What the driver writes back for a successful query. */
  datatype Answer =
    | TextAnswer(s: string)
    | NumberAnswer(n: int)
    | WideAnswer(w: bv64)
    | NumbersAnswer(ns: seq<nat>)
    | PointerAnswer(p: Ptr)
    | PointersAnswer(ps: seq<Ptr>)
    | FormatAnswer(order: nat, dataType: nat)
    | BlobsAnswer(blobs: seq<(Ptr, nat)>)

  /** The driver's answer has the layout the shape reads. */
  predicate Fits(s: Shape, a: Answer) {
    match s
    case TextOf => a.TextAnswer?
    case NumberOf => a.NumberAnswer?
    case FlagOf => a.NumberAnswer?
    case HalvesOf => a.WideAnswer?
    case NumbersOf => a.NumbersAnswer?
    case HandleOf(_, _, _) => a.PointerAnswer?
    case DevicesOf => a.PointersAnswer?
    case FormatOf => a.FormatAnswer?
    case BlobsOf => a.BlobsAnswer?
  }

  /** The handle types a shape produces have a wrapper kind in the variant's table. */
  predicate WellFormed(v: Variant, s: Shape) {
    (s.HandleOf? ==> IndexOf(v, s.t).Some?)
    && (s.DevicesOf? ==> IndexOf(v, DeviceId).Some?)
  }

  /** The JS array [hi, lo] of a cl_ulong. */
  function HalvesValue(w: bv64): (r: Value)
    ensures r.Array? && |r.items| == 2 && r.items[0].Number? && r.items[1].Number?
    ensures 0 <= r.items[0].n < Split64.TwoTo32Int && 0 <= r.items[1].n < Split64.TwoTo32Int
  {
    var (hi, lo) := Split64.Split(w);
    Array([Number(hi as int), Number(lo as int)])
  }

  /** The halves of a cl_ulong, read back as numbers, join to the value. */
  lemma HalvesJoin(w: bv64)
    ensures var r := HalvesValue(w);
      Split64.Join(r.items[0].n as bv64, r.items[1].n as bv64) == w
  {
    Split64.JoinSplit(w);
  }

  /** The JS array of a list of integers, one number per entry. */
  function NumbersValue(ns: seq<int>): (r: Value)
    ensures r.Array? && |r.items| == |ns|
    ensures forall k :: 0 <= k < |ns| ==> r.items[k] == Number(ns[k])
  {
    Array(seq(|ns|, k requires 0 <= k < |ns| => Number(ns[k])))
  }

  function BlobsValue(blobs: seq<(Ptr, nat)>): (r: Value)
    ensures r.Array? && |r.items| == |blobs|
    ensures forall k :: 0 <= k < |blobs| ==> r.items[k] == ArrayBuffer(blobs[k].0, blobs[k].1)
  {
    Array(seq(|blobs|, k requires 0 <= k < |blobs| => ArrayBuffer(blobs[k].0, blobs[k].1)))
  }

  /** An image format as the info queries return it: an object with its channel order and data type. */
  function FormatValue(order: int, dataType: int): Value {
    Object(map["channel_order" := Number(order), "channel_data_type" := Number(dataType)])
  }

  function HandlesValue(hs: seq<Handle>): (r: Value)
    ensures r.Array? && |r.items| == |hs|
    ensures forall k :: 0 <= k < |hs| ==> r.items[k] == Wrapped(hs[k])
  {
    Array(seq(|hs|, k requires 0 <= k < |hs| => Wrapped(hs[k])))
  }

  /**
   * One get*Info call: `shape` is what the translator's switch selects for
   * the parameter name (None for a name it does not list), `status` what
   * the driver's query returns and `answer` what it writes.
   */
  function Query(v: Variant, shape: Option<Shape>, status: int, answer: Answer, d: Driver): (r: (Call<Value>, Driver))
    requires shape.Some? ==> WellFormed(v, shape.value)
    requires shape.Some? && status == CL_SUCCESS ==> Fits(shape.value, answer)
    ensures shape.None? ==> r == (ThrowErr(CL_INVALID_VALUE), d)
    ensures shape.Some? && status != CL_SUCCESS ==> r == (ThrowErr(status), d)
    ensures r.0.Returned? ==> shape.Some? && status == CL_SUCCESS
    ensures shape.Some? && !shape.value.DevicesOf? && !(shape.value.HandleOf? && shape.value.retain.Some?) ==> r.1 == d
    ensures shape == Some(TextOf) && status == CL_SUCCESS ==> r.0 == Returned(Str(answer.s))
    ensures shape == Some(NumberOf) && status == CL_SUCCESS ==> r.0 == Returned(Number(answer.n))
    ensures shape == Some(FlagOf) && status == CL_SUCCESS ==> r.0 == Returned(Bool(answer.n == CL_TRUE))
    ensures shape == Some(HalvesOf) && status == CL_SUCCESS ==> r.0 == Returned(HalvesValue(answer.w))
    ensures shape == Some(NumbersOf) && status == CL_SUCCESS ==> r.0 == Returned(NumbersValue(answer.ns))
    ensures shape == Some(FormatOf) && status == CL_SUCCESS ==> r.0 == Returned(FormatValue(answer.order, answer.dataType))
    ensures shape == Some(BlobsOf) && status == CL_SUCCESS ==> r.0 == Returned(BlobsValue(answer.blobs))
    ensures shape.Some? && shape.value.HandleOf? && status == CL_SUCCESS ==>
      && (shape.value.nullable && answer.p == NULL ==> r.0 == Returned(Null))
      && (r.0.Returned? && !(shape.value.nullable && answer.p == NULL) ==> r.0.value == Wrapped(FromRaw(v, shape.value.t, answer.p)))
      && (shape.value.retain.None? ==> r.0.Returned?)
    ensures shape == Some(DevicesOf) && status == CL_SUCCESS && r.0.Returned? ==>
      r.0.value == HandlesValue(seq(|answer.ps|, k requires 0 <= k < |answer.ps| => FromRaw(v, DeviceId, answer.ps[k])))
  {
    if shape.None? then (ThrowErr(CL_INVALID_VALUE), d)
    else if status != CL_SUCCESS then (ThrowErr(status), d)
    else match shape.value
      case TextOf => (Returned(Str(answer.s)), d)
      case NumberOf => (Returned(Number(answer.n)), d)
      case FlagOf => (Returned(Bool(answer.n == CL_TRUE)), d)
      case HalvesOf => (Returned(HalvesValue(answer.w)), d)
      case NumbersOf => (Returned(NumbersValue(answer.ns)), d)
      case FormatOf => (Returned(FormatValue(answer.order, answer.dataType)), d)
      case BlobsOf => (Returned(BlobsValue(answer.blobs)), d)
      case HandleOf(t, retain, nullable) =>
        if nullable && answer.p == NULL then (Returned(Null), d)
        else if retain.None? then (Returned(Wrapped(FromRaw(v, t, answer.p))), d)
        else
          var (d', err) := DriverRetain(d, retain.value, answer.p);
          (CheckErr(err, Returned(Wrapped(FromRaw(v, t, answer.p)))), d')
      case DevicesOf =>
        var (hs, d') := RetainAndWrap(v, DeviceId, Device, answer.ps, d);
        (if hs.Returned? then Returned(HandlesValue(hs.value)) else Threw(hs.failure), d')
  }

  /** A retained handle is retained exactly once, before it is wrapped, and then handed out. */
  lemma RetainedHandleAnswer(v: Variant, t: RawType, obj: ClObject, nullable: bool, p: Ptr, d: Driver)
    requires WellFormed(v, HandleOf(t, Some(obj), nullable)) && !(nullable && p == NULL)
    ensures var r := Query(v, Some(HandleOf(t, Some(obj), nullable)), CL_SUCCESS, PointerAnswer(p), d);
      && r.1.log == d.log + [RetainCall(obj, p)]
      && (r.0.Returned? <==> Known(d, obj, p))
      && (r.0.Returned? ==> r.0.value == Wrapped(FromRaw(v, t, p)))
      && (r.0.Returned? && p in d.counts ==> r.1.counts == d.counts[p := d.counts[p] + 1])
  {
  }

  /**
   * A device list: n = byteSize / sizeof(cl_device_id) handles, where the
   * driver reports 8 bytes per device; each one retained in order, then
   * wrapped in the same order.
   */
  lemma {:induction false} DevicesAnswer(v: Variant, ps: seq<Ptr>, d: Driver)
    requires WellFormed(v, DevicesOf)
    ensures var r := Query(v, Some(DevicesOf), CL_SUCCESS, PointersAnswer(ps), d);
      && (r.0.Returned? <==> forall k :: 0 <= k < |ps| ==> Known(d, Device, ps[k]))
      && (r.0.Returned? ==>
            && |r.0.value.items| == |ps|
            && (forall k :: 0 <= k < |ps| ==> r.0.value.items[k] == Wrapped(FromRaw(v, DeviceId, ps[k])))
            && r.1.log == d.log + RetainCalls(Device, ps))
  {
    RetainAndWrapSucceedsIffKnown(v, DeviceId, Device, ps, d);
  }

  /** A cl_ulong answer comes back as halves that join to the driver's value. */
  lemma HalvesAnswer(w: bv64, d: Driver)
    ensures var r := Query(Legacy, Some(HalvesOf), CL_SUCCESS, WideAnswer(w), d);
      && r.0.Returned? && r.0.value == HalvesValue(w)
      && Split64.Join(Split64.Split(w).0, Split64.Split(w).1) == w
  {
    Split64.JoinSplit(w);
  }
}
