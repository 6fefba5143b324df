/**
 * The memory-object translators of src/cpp/memobj.cpp: createBuffer and its
 * host-memory check, createSubBuffer and its buffer_create_type check,
 * createImage and the way it fills cl_image_format and cl_image_desc, the
 * supported-format listing, and the getMemObjectInfo and getImageInfo
 * tables.
 */
module Memobj {
  import opened Native
  import opened Registry
  import opened Js
  import opened Status
  import opened Wrapper
  import opened Results
  import opened ClConst
  import opened Info
  import Queue

  /** A new memory object as the translators hand it back. */
  function NewMem(p: Ptr): Value {
    Wrapped(FromRaw(Legacy, MemId, p))
  }

  /**
   * createBuffer: without argument 3 the driver gets a null host pointer;
   * with it, the argument must be an object holding non-empty bytes, or the
   * call throws before the driver sees it.
   */
  function CreateBuffer(ctxArg: Value, hostArg: Value, status: int, mem: Ptr): (r: (Call<Value>, Option<Ptr>))
    requires IsObject(ctxArg) ==> ctxArg.Wrapped?
    ensures !IsObject(ctxArg) ==> r == (Threw(ArgType(0, "Object")), None)
    ensures IsObject(ctxArg) && IsEmpty(hostArg) ==> r.1 == Some(NULL)
    ensures IsObject(ctxArg) && !IsEmpty(hostArg) ==>
      && (r.1.Some? <==> Queue.HostData(3, hostArg).Returned?)
      && (r.1.Some? ==> r.1.value == hostArg.data && r.1.value != NULL)
      && (r.1.None? ==> r.0 == Threw(Queue.HostData(3, hostArg).failure))
    ensures r.0.Returned? <==> r.1.Some? && status == CL_SUCCESS
    ensures r.0.Returned? ==> r.0.value == NewMem(mem)
  {
    var ctx := ReqClArg(0, ctxArg);
    if ctx.Threw? then (Threw(ctx.failure), None)
    else
      var host := if IsEmpty(hostArg) then Returned(NULL) else Queue.HostData(3, hostArg);
      if host.Threw? then (Threw(host.failure), None)
      else (CheckErr(status, Returned(NewMem(mem))), Some(host.value))
  }

  /**
   * Host memory given to createBuffer reaches the driver as its own data
   * pointer exactly when it is non-empty; empty host memory throws before
   * the driver is called.
   */
  lemma HostMemoryReachesDriver(ctx: Handle, hostArg: Value, status: int, mem: Ptr)
    requires HoldsBytes(hostArg)
    ensures var r := CreateBuffer(Wrapped(ctx), hostArg, status, mem);
      && (hostArg.data != NULL && hostArg.byteLength > 0 ==> r.1 == Some(hostArg.data))
      && (hostArg.data == NULL || hostArg.byteLength == 0 ==> r == (Threw(Plain(Queue.NoDataMessage)), None))
  {
  }

  /** The cl_buffer_region handed to the driver. */
  datatype Region = Region(origin: int, size: int)

  /**
   * createSubBuffer: only CL_BUFFER_CREATE_TYPE_REGION at argument 2 is
   * accepted; its origin and size are read from the object at argument 3.
   * Any other type throws INVALID_VALUE without a driver call.
   */
  function CreateSubBuffer(bufArg: Value, createType: nat, infoArg: Value, status: int, mem: Ptr): (r: (Call<Value>, Option<Region>))
    requires IsObject(bufArg) ==> bufArg.Wrapped?
    ensures !IsObject(bufArg) ==> r == (Threw(ArgType(0, "Object")), None)
    ensures IsObject(bufArg) && createType != CL_BUFFER_CREATE_TYPE_REGION ==> r == (ThrowErr(CL_INVALID_VALUE), None)
    ensures IsObject(bufArg) && createType == CL_BUFFER_CREATE_TYPE_REGION && !IsObject(infoArg) ==>
      r == (Threw(ArgType(3, "Object")), None)
    ensures r.1.Some? <==> IsObject(bufArg) && createType == CL_BUFFER_CREATE_TYPE_REGION && IsObject(infoArg)
    ensures r.1.Some? ==> r.1.value == Region(Int64Value(Get(infoArg, "origin")), Int64Value(Get(infoArg, "size")))
    ensures r.0.Returned? <==> r.1.Some? && status == CL_SUCCESS
    ensures r.0.Returned? ==> r.0.value == NewMem(mem)
  {
    var buffer := ReqClArg(0, bufArg);
    if buffer.Threw? then (Threw(buffer.failure), None)
    else if createType != CL_BUFFER_CREATE_TYPE_REGION then (ThrowErr(CL_INVALID_VALUE), None)
    else if !IsObject(infoArg) then (Threw(ArgType(3, "Object")), None)
    else
      var region := Region(Int64Value(Get(infoArg, "origin")), Int64Value(Get(infoArg, "size")));
      (CheckErr(status, Returned(NewMem(mem))), Some(region))
  }

  /** A region written as {origin, size} reaches the driver unchanged. */
  lemma SubBufferRegionRoundTrip(bufArg: Value, origin: int, size: int, status: int, mem: Ptr)
    requires bufArg.Wrapped?
    ensures var info := Object(map["origin" := Number(origin), "size" := Number(size)]);
      CreateSubBuffer(bufArg, CL_BUFFER_CREATE_TYPE_REGION, info, status, mem).1 == Some(Region(origin, size))
  {
    var info := Object(map["origin" := Number(origin), "size" := Number(size)]);
    assert Has(info, "origin") && Has(info, "size");
  }

  // createImage.

  datatype ImageFormat = ImageFormat(order: int, dataType: int)

  /** The cl_image_desc fields the translator sets; num_mip_levels and num_samples stay 0. */
  datatype ImageDesc = ImageDesc(
    imageType: int, width: int, height: int, depth: int, arraySize: int,
    rowPitch: int, slicePitch: int, buffer: Ptr)

  /** A descriptor's optional buffer: read only when descObj.buffer is an object, which must then be a wrapper. */
  predicate DescShape(desc: Value) {
    IsObject(Get(desc, "buffer")) ==> Get(desc, "buffer").Wrapped?
  }

  function DescBuffer(desc: Value): Ptr
    requires DescShape(desc)
  {
    if IsObject(Get(desc, "buffer")) then As(Get(desc, "buffer").h) else NULL
  }

  /** One field as written: 0 when the object has the key, the converted property when it does not. */
  function FieldAsWritten(obj: Value, key: string, wide: bool): int {
    if Has(obj, key) then 0
    else if wide then Int64Value(Get(obj, key)) else Uint32Value(Get(obj, key))
  }

  /** One field read the way the keys are meant: the converted property when present, 0 when absent. */
  function Field(obj: Value, key: string, wide: bool): (r: int)
    ensures !Has(obj, key) ==> r == 0
    ensures Has(obj, key) && wide ==> r == Int64Value(obj.fields[key])
    ensures Has(obj, key) && !wide ==> r == Uint32Value(obj.fields[key])
  {
    if !Has(obj, key) then 0
    else if wide then Int64Value(Get(obj, key)) else Uint32Value(Get(obj, key))
  }

  function FormatAsWritten(fmt: Value): ImageFormat {
    ImageFormat(FieldAsWritten(fmt, "channel_order", false), FieldAsWritten(fmt, "channel_data_type", false))
  }

  function DescAsWritten(desc: Value): ImageDesc
    requires DescShape(desc)
  {
    ImageDesc(
      FieldAsWritten(desc, "type", false), FieldAsWritten(desc, "width", true),
      FieldAsWritten(desc, "height", true), FieldAsWritten(desc, "depth", true),
      FieldAsWritten(desc, "array_size", true), FieldAsWritten(desc, "row_pitch", true),
      FieldAsWritten(desc, "slice_pitch", true), DescBuffer(desc))
  }

  function ReadFormat(fmt: Value): ImageFormat {
    ImageFormat(Field(fmt, "channel_order", false), Field(fmt, "channel_data_type", false))
  }

  function ReadDesc(desc: Value): ImageDesc
    requires DescShape(desc)
  {
    ImageDesc(
      Field(desc, "type", false), Field(desc, "width", true),
      Field(desc, "height", true), Field(desc, "depth", true),
      Field(desc, "array_size", true), Field(desc, "row_pitch", true),
      Field(desc, "slice_pitch", true), DescBuffer(desc))
  }

  /**
   * As written, every format and descriptor number is 0 whatever the
   * objects hold: a present key gives 0 directly, and a missing key reads
   * undefined, which converts to 0.
   */
  lemma ImageFieldsAsWrittenAreZero(fmt: Value, desc: Value)
    requires DescShape(desc)
    ensures FormatAsWritten(fmt) == ImageFormat(0, 0)
    ensures DescAsWritten(desc) == ImageDesc(0, 0, 0, 0, 0, 0, 0, DescBuffer(desc))
  {
  }

  /** The JS descriptor a caller writes for a given image: every key present. */
  function DescObject(d: ImageDesc): Value {
    Object(map[
      "type" := Number(d.imageType), "width" := Number(d.width), "height" := Number(d.height),
      "depth" := Number(d.depth), "array_size" := Number(d.arraySize),
      "row_pitch" := Number(d.rowPitch), "slice_pitch" := Number(d.slicePitch)])
  }

  function FormatObject(f: ImageFormat): Value {
    FormatValue(f.order, f.dataType)
  }

  lemma FormatRoundTrip(f: ImageFormat)
    requires ValidFormat(f)
    ensures ReadFormat(FormatObject(f)) == f
  {
    var fo := FormatObject(f);
    assert Has(fo, "channel_order") && Has(fo, "channel_data_type");
  }

  /** Reading back the objects a caller writes gives the format and descriptor they describe. */
  lemma ImageFieldsRoundTrip(f: ImageFormat, d: ImageDesc)
    requires ValidFormat(f) && 0 <= d.imageType < TwoTo32
    requires d.buffer == NULL
    ensures ReadFormat(FormatObject(f)) == f
    ensures DescShape(DescObject(d)) && ReadDesc(DescObject(d)) == d
  {
    FormatRoundTrip(f);
    var dobj := DescObject(d);
    assert Has(dobj, "type") && Has(dobj, "width") && Has(dobj, "height") && Has(dobj, "depth");
    assert Has(dobj, "array_size") && Has(dobj, "row_pitch") && Has(dobj, "slice_pitch") && !Has(dobj, "buffer");
    assert Uint32Value(Number(d.imageType)) == d.imageType;
  }

  /** What createImage hands the driver. */
  datatype ImageCall = ImageCall(format: ImageFormat, desc: ImageDesc, host: Ptr)

  /**
   * createImage: the format object (2), the descriptor object (3), then the
   * optional host memory (4) with the same check as createBuffer. The format
   * and descriptor are read as written, so their numbers reach the driver
   * as 0 (ImageFieldsAsWrittenAreZero); ReadFormat and ReadDesc are the
   * intended readers.
   */
  function CreateImage(ctxArg: Value, fmtArg: Value, descArg: Value, hostArg: Value, status: int, mem: Ptr): (r: (Call<Value>, Option<ImageCall>))
    requires IsObject(ctxArg) ==> ctxArg.Wrapped?
    requires DescShape(descArg)
    ensures !IsObject(ctxArg) ==> r == (Threw(ArgType(0, "Object")), None)
    ensures IsObject(ctxArg) && !IsObject(fmtArg) ==> r == (Threw(ArgType(2, "Object")), None)
    ensures IsObject(ctxArg) && IsObject(fmtArg) && !IsObject(descArg) ==> r == (Threw(ArgType(3, "Object")), None)
    ensures r.1.Some? <==>
      && IsObject(ctxArg) && IsObject(fmtArg) && IsObject(descArg)
      && (IsEmpty(hostArg) || Queue.HostData(4, hostArg).Returned?)
    ensures r.1.Some? ==>
      && r.1.value.format == FormatAsWritten(fmtArg) && r.1.value.desc == DescAsWritten(descArg)
      && r.1.value.host == (if IsEmpty(hostArg) then NULL else hostArg.data)
    ensures r.0.Returned? <==> r.1.Some? && status == CL_SUCCESS
    ensures r.0.Returned? ==> r.0.value == NewMem(mem)
  {
    var ctx := ReqClArg(0, ctxArg);
    if ctx.Threw? then (Threw(ctx.failure), None)
    else if !IsObject(fmtArg) then (Threw(ArgType(2, "Object")), None)
    else if !IsObject(descArg) then (Threw(ArgType(3, "Object")), None)
    else
      var host := if IsEmpty(hostArg) then Returned(NULL) else Queue.HostData(4, hostArg);
      if host.Threw? then (Threw(host.failure), None)
      else (CheckErr(status, Returned(NewMem(mem))), Some(ImageCall(FormatAsWritten(fmtArg), DescAsWritten(descArg), host.value)))
  }

  /**
   * Whatever image the caller describes, createImage as written hands the
   * driver an all-zero format and descriptor, which the intended reader
   * would have read back as the caller's image.
   */
  lemma CreateImageDropsFields(ctx: Handle, f: ImageFormat, d: ImageDesc, mem: Ptr)
    requires ValidFormat(f) && 0 <= d.imageType < TwoTo32 && d.buffer == NULL
    ensures var r := CreateImage(Wrapped(ctx), FormatObject(f), DescObject(d), Undefined, CL_SUCCESS, mem);
      && r.0 == Returned(NewMem(mem)) && r.1.Some?
      && r.1.value.format == ImageFormat(0, 0)
      && r.1.value.desc == ImageDesc(0, 0, 0, 0, 0, 0, 0, NULL)
      && ReadFormat(FormatObject(f)) == f && ReadDesc(DescObject(d)) == d
  {
    ImageFieldsRoundTrip(f, d);
    ImageFieldsAsWrittenAreZero(FormatObject(f), DescObject(d));
    var dobj := DescObject(d);
    assert !Has(dobj, "buffer");
  }

  /** Both fields fit the cl_uint the driver writes them as. */
  predicate ValidFormat(f: ImageFormat) {
    0 <= f.order < TwoTo32 && 0 <= f.dataType < TwoTo32
  }

  /**
   * getSupportedImageFormats: the context (argument 0), then count, list,
   * and one {channel_order, channel_data_type} object per format.
   */
  function GetSupportedImageFormats(ctxArg: Value, countStatus: int, listStatus: int, formats: seq<ImageFormat>): (r: Call<Value>)
    requires IsObject(ctxArg) ==> ctxArg.Wrapped?
    requires forall k :: 0 <= k < |formats| ==> ValidFormat(formats[k])
    ensures !IsObject(ctxArg) ==> r == Threw(ArgType(0, "Object"))
    ensures IsObject(ctxArg) && countStatus != CL_SUCCESS ==> r == ThrowErr(countStatus)
    ensures IsObject(ctxArg) && countStatus == CL_SUCCESS && listStatus != CL_SUCCESS ==> r == ThrowErr(listStatus)
    ensures r.Returned? <==> IsObject(ctxArg) && countStatus == CL_SUCCESS && listStatus == CL_SUCCESS
    ensures r.Returned? ==> r.value.Array? && |r.value.items| == |formats|
    ensures r.Returned? ==> forall k :: 0 <= k < |formats| ==> ReadFormat(r.value.items[k]) == formats[k]
  {
    var ctx := ReqClArg(0, ctxArg);
    if ctx.Threw? then Threw(ctx.failure)
    else if countStatus != CL_SUCCESS then ThrowErr(countStatus)
    else if listStatus != CL_SUCCESS then ThrowErr(listStatus)
    else
      var objs := seq(|formats|, k requires 0 <= k < |formats| => FormatObject(formats[k]));
      assert forall k :: 0 <= k < |formats| ==> ReadFormat(objs[k]) == formats[k] by {
        forall k | 0 <= k < |formats| ensures ReadFormat(objs[k]) == formats[k] {
          FormatRoundTrip(formats[k]);
        }
      }
      Returned(Array(objs))
  }

  // getMemObjectInfo and getImageInfo.

  /** The answer shape of each getMemObjectInfo name. */
  function MemInfoShape(param: nat): Option<Shape> {
    if param == CL_MEM_TYPE || param == CL_MEM_FLAGS || param == CL_MEM_SIZE || param == CL_MEM_OFFSET
      || param == CL_MEM_MAP_COUNT || param == CL_MEM_REFERENCE_COUNT then Some(NumberOf)
    else if param == CL_MEM_HOST_PTR then Some(HandleOf(MappedPtr, None, false))
    else if param == CL_MEM_CONTEXT then Some(HandleOf(ContextId, Some(Context), false))
    else if param == CL_MEM_ASSOCIATED_MEMOBJECT then Some(HandleOf(MemId, Some(MemObject), false))
    else None
  }

  /**
   * getMemObjectInfo: the memory object (argument 0), then the switch: the
   * type, flags, sizes and counts as numbers, the host pointer wrapped as
   * is, and the context and the associated object, retained before they
   * are wrapped.
   */
  function GetMemObjectInfo(memArg: Value, param: nat, status: int, answer: Answer, d: Driver): (r: (Call<Value>, Driver))
    requires IsObject(memArg) ==> memArg.Wrapped?
    requires MemInfoShape(param).Some? && status == CL_SUCCESS ==> Fits(MemInfoShape(param).value, answer)
    ensures !IsObject(memArg) ==> r == (Threw(ArgType(0, "Object")), d)
    ensures IsObject(memArg) && MemInfoShape(param).None? ==> r == (ThrowErr(CL_INVALID_VALUE), d)
    ensures IsObject(memArg) && MemInfoShape(param).Some? && status != CL_SUCCESS ==> r == (ThrowErr(status), d)
    ensures IsObject(memArg) && MemInfoShape(param) == Some(NumberOf) && status == CL_SUCCESS ==> r == (Returned(Number(answer.n)), d)
    ensures IsObject(memArg) && (param == CL_MEM_CONTEXT || param == CL_MEM_ASSOCIATED_MEMOBJECT) && status == CL_SUCCESS ==>
      && r.1.log == d.log + [RetainCall(if param == CL_MEM_CONTEXT then Context else MemObject, answer.p)]
      && (r.0.Returned? <==> answer.p in d.counts)
      && (r.0.Returned? ==> r.0.value == Wrapped(FromRaw(Legacy, if param == CL_MEM_CONTEXT then ContextId else MemId, answer.p)))
    ensures IsObject(memArg) && param == CL_MEM_HOST_PTR && status == CL_SUCCESS ==>
      r == (Returned(Wrapped(FromRaw(Legacy, MappedPtr, answer.p))), d)
    ensures param != CL_MEM_CONTEXT && param != CL_MEM_ASSOCIATED_MEMOBJECT ==> r.1 == d
  {
    var mem := ReqClArg(0, memArg);
    if mem.Threw? then (Threw(mem.failure), d)
    else Query(Legacy, MemInfoShape(param), status, answer, d)
  }

  /** The answer shape of each getImageInfo name. */
  function ImageInfoShape(param: nat): Option<Shape> {
    if param == CL_IMAGE_FORMAT then Some(FormatOf)
    else if param == CL_IMAGE_ELEMENT_SIZE || param == CL_IMAGE_ROW_PITCH || param == CL_IMAGE_SLICE_PITCH
      || param == CL_IMAGE_WIDTH || param == CL_IMAGE_HEIGHT || param == CL_IMAGE_DEPTH
      || param == CL_IMAGE_ARRAY_SIZE || param == CL_IMAGE_NUM_MIP_LEVELS || param == CL_IMAGE_NUM_SAMPLES then Some(NumberOf)
    else if param == CL_IMAGE_BUFFER then Some(HandleOf(MemId, Some(MemObject), false))
    else None
  }

  /**
   * getImageInfo: the image (argument 0), then the switch: the format with
   * the keys createImage reads, the sizes and counts as numbers, and the
   * buffer, retained before it is wrapped.
   */
  function GetImageInfo(imageArg: Value, param: nat, status: int, answer: Answer, d: Driver): (r: (Call<Value>, Driver))
    requires IsObject(imageArg) ==> imageArg.Wrapped?
    requires ImageInfoShape(param).Some? && status == CL_SUCCESS ==> Fits(ImageInfoShape(param).value, answer)
    ensures !IsObject(imageArg) ==> r == (Threw(ArgType(0, "Object")), d)
    ensures IsObject(imageArg) && ImageInfoShape(param).None? ==> r == (ThrowErr(CL_INVALID_VALUE), d)
    ensures IsObject(imageArg) && ImageInfoShape(param).Some? && status != CL_SUCCESS ==> r == (ThrowErr(status), d)
    ensures IsObject(imageArg) && param == CL_IMAGE_FORMAT && status == CL_SUCCESS ==>
      r.0.Returned? && r.0.value == FormatObject(ImageFormat(answer.order, answer.dataType))
    ensures IsObject(imageArg) && ImageInfoShape(param) == Some(NumberOf) && status == CL_SUCCESS ==> r == (Returned(Number(answer.n)), d)
    ensures IsObject(imageArg) && param == CL_IMAGE_BUFFER && status == CL_SUCCESS ==>
      && r.1.log == d.log + [RetainCall(MemObject, answer.p)]
      && (r.0.Returned? <==> answer.p in d.counts)
      && (r.0.Returned? ==> r.0.value == Wrapped(FromRaw(Legacy, MemId, answer.p)))
    ensures param != CL_IMAGE_BUFFER ==> r.1 == d
  {
    var image := ReqClArg(0, imageArg);
    if image.Threw? then (Threw(image.failure), d)
    else Query(Legacy, ImageInfoShape(param), status, answer, d)
  }

  /** A format read back through getImageInfo is the one createImage reads from the same object. */
  lemma ImageFormatInfoRoundTrip(image: Handle, order: nat, dataType: nat, d: Driver)
    requires order < TwoTo32 && dataType < TwoTo32
    ensures var r := GetImageInfo(Wrapped(image), CL_IMAGE_FORMAT, CL_SUCCESS, FormatAnswer(order, dataType), d);
      r.0.Returned? && ReadFormat(r.0.value) == ImageFormat(order, dataType)
  {
    FormatRoundTrip(ImageFormat(order, dataType));
  }
}
