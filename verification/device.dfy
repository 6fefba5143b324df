/**
 * The device translators of src/cpp/device.cpp: getDeviceIDs, the
 * parameter classes of getDeviceInfo, and the root-device guard of
 * retainDevice and releaseDevice. The non-Apple build is modelled, which
 * also lists the NVIDIA uint parameters.
 */
module Device {
  import opened Native
  import opened Registry
  import opened Js
  import opened Status
  import opened Wrapper
  import opened Results
  import opened ClConst
  import opened Info

  /** The groups of the getDeviceInfo switch; each group has its own reader. */
  datatype ParamClass =
    | TextParam | PlatformParam | TypeParam | MemTypeParam | CacheTypeParam
    | CapsParam | QueuePropsParam | FpParam | WorkItemSizesParam
    | BoolParam | UintParam | UlongParam | SizeParam

  predicate IsTextName(n: nat) {
    n == CL_DEVICE_NAME
      || n == CL_DEVICE_VENDOR
      || n == CL_DRIVER_VERSION
      || n == CL_DEVICE_PROFILE
      || n == CL_DEVICE_VERSION
      || n == CL_DEVICE_OPENCL_C_VERSION
      || n == CL_DEVICE_EXTENSIONS
  }

  predicate IsFpName(n: nat) {
    n == CL_DEVICE_HALF_FP_CONFIG
      || n == CL_DEVICE_SINGLE_FP_CONFIG
      || n == CL_DEVICE_DOUBLE_FP_CONFIG
  }

  predicate IsUintName(n: nat) {
    n == CL_DEVICE_ADDRESS_BITS
      || n == CL_DEVICE_GLOBAL_MEM_CACHELINE_SIZE
      || n == CL_DEVICE_MAX_CLOCK_FREQUENCY
      || n == CL_DEVICE_MAX_COMPUTE_UNITS
      || n == CL_DEVICE_MAX_CONSTANT_ARGS
      || n == CL_DEVICE_MAX_READ_IMAGE_ARGS
      || n == CL_DEVICE_MAX_SAMPLERS
      || n == CL_DEVICE_MAX_WORK_ITEM_DIMENSIONS
      || n == CL_DEVICE_MAX_WRITE_IMAGE_ARGS
      || n == CL_DEVICE_MEM_BASE_ADDR_ALIGN
      || n == CL_DEVICE_MIN_DATA_TYPE_ALIGN_SIZE
      || n == CL_DEVICE_NATIVE_VECTOR_WIDTH_CHAR
      || n == CL_DEVICE_NATIVE_VECTOR_WIDTH_SHORT
      || n == CL_DEVICE_NATIVE_VECTOR_WIDTH_INT
      || n == CL_DEVICE_NATIVE_VECTOR_WIDTH_LONG
      || n == CL_DEVICE_NATIVE_VECTOR_WIDTH_FLOAT
      || n == CL_DEVICE_NATIVE_VECTOR_WIDTH_DOUBLE
      || n == CL_DEVICE_NATIVE_VECTOR_WIDTH_HALF
      || n == CL_DEVICE_PREFERRED_VECTOR_WIDTH_CHAR
      || n == CL_DEVICE_PREFERRED_VECTOR_WIDTH_SHORT
      || n == CL_DEVICE_PREFERRED_VECTOR_WIDTH_INT
      || n == CL_DEVICE_PREFERRED_VECTOR_WIDTH_LONG
      || n == CL_DEVICE_PREFERRED_VECTOR_WIDTH_FLOAT
      || n == CL_DEVICE_PREFERRED_VECTOR_WIDTH_DOUBLE
      || n == CL_DEVICE_PREFERRED_VECTOR_WIDTH_HALF
      || n == CL_DEVICE_VENDOR_ID
      || n == CL_DEVICE_COMPUTE_CAPABILITY_MAJOR_NV
      || n == CL_DEVICE_COMPUTE_CAPABILITY_MINOR_NV
      || n == CL_DEVICE_REGISTERS_PER_BLOCK_NV
      || n == CL_DEVICE_WARP_SIZE_NV
      || n == CL_DEVICE_GPU_OVERLAP_NV
      || n == CL_DEVICE_KERNEL_EXEC_TIMEOUT_NV
      || n == CL_DEVICE_INTEGRATED_MEMORY_NV
      || n == CL_DEVICE_REFERENCE_COUNT
      || n == CL_DEVICE_PARTITION_MAX_SUB_DEVICES
  }

  predicate IsBoolName(n: nat) {
    n == CL_DEVICE_AVAILABLE
      || n == CL_DEVICE_COMPILER_AVAILABLE
      || n == CL_DEVICE_ENDIAN_LITTLE
      || n == CL_DEVICE_ERROR_CORRECTION_SUPPORT
      || n == CL_DEVICE_HOST_UNIFIED_MEMORY
      || n == CL_DEVICE_IMAGE_SUPPORT
  }

  predicate IsUlongName(n: nat) {
    n == CL_DEVICE_GLOBAL_MEM_CACHE_SIZE
      || n == CL_DEVICE_GLOBAL_MEM_SIZE
      || n == CL_DEVICE_LOCAL_MEM_SIZE
      || n == CL_DEVICE_MAX_CONSTANT_BUFFER_SIZE
      || n == CL_DEVICE_MAX_MEM_ALLOC_SIZE
  }

  predicate IsSizeName(n: nat) {
    n == CL_DEVICE_IMAGE2D_MAX_HEIGHT
      || n == CL_DEVICE_IMAGE2D_MAX_WIDTH
      || n == CL_DEVICE_IMAGE3D_MAX_DEPTH
      || n == CL_DEVICE_IMAGE3D_MAX_HEIGHT
      || n == CL_DEVICE_IMAGE3D_MAX_WIDTH
      || n == CL_DEVICE_MAX_PARAMETER_SIZE
      || n == CL_DEVICE_MAX_WORK_GROUP_SIZE
      || n == CL_DEVICE_PROFILING_TIMER_RESOLUTION
      || n == CL_DEVICE_IMAGE_MAX_BUFFER_SIZE
      || n == CL_DEVICE_IMAGE_MAX_ARRAY_SIZE
  }

  /** The names whose answer is a single integer: the enum and bitfield classes, cl_uint and size_t. */
  predicate IsNumberName(n: nat) {
    || n == CL_DEVICE_TYPE || n == CL_DEVICE_LOCAL_MEM_TYPE || n == CL_DEVICE_GLOBAL_MEM_CACHE_TYPE
    || n == CL_DEVICE_EXECUTION_CAPABILITIES || n == CL_DEVICE_QUEUE_PROPERTIES
    || IsFpName(n) || IsUintName(n) || IsSizeName(n)
  }

  /** The case labels listed under each class of the switch. */
  predicate Listed(c: ParamClass, n: nat) {
    match c
    case TextParam => IsTextName(n)
    case PlatformParam => n == CL_DEVICE_PLATFORM
    case TypeParam => n == CL_DEVICE_TYPE
    case MemTypeParam => n == CL_DEVICE_LOCAL_MEM_TYPE
    case CacheTypeParam => n == CL_DEVICE_GLOBAL_MEM_CACHE_TYPE
    case CapsParam => n == CL_DEVICE_EXECUTION_CAPABILITIES
    case QueuePropsParam => n == CL_DEVICE_QUEUE_PROPERTIES
    case FpParam => IsFpName(n)
    case WorkItemSizesParam => n == CL_DEVICE_MAX_WORK_ITEM_SIZES
    case BoolParam => IsBoolName(n)
    case UintParam => IsUintName(n)
    case UlongParam => IsUlongName(n)
    case SizeParam => IsSizeName(n)
  }

  /** The switch of getDeviceInfo: the class whose case label the name matches, if any. */
  function ClassOf(name: nat): (c: Option<ParamClass>) {
    if IsTextName(name) then Some(TextParam)
    else if name == CL_DEVICE_PLATFORM then Some(PlatformParam)
    else if name == CL_DEVICE_TYPE then Some(TypeParam)
    else if name == CL_DEVICE_LOCAL_MEM_TYPE then Some(MemTypeParam)
    else if name == CL_DEVICE_GLOBAL_MEM_CACHE_TYPE then Some(CacheTypeParam)
    else if name == CL_DEVICE_EXECUTION_CAPABILITIES then Some(CapsParam)
    else if name == CL_DEVICE_QUEUE_PROPERTIES then Some(QueuePropsParam)
    else if IsFpName(name) then Some(FpParam)
    else if name == CL_DEVICE_MAX_WORK_ITEM_SIZES then Some(WorkItemSizesParam)
    else if IsBoolName(name) then Some(BoolParam)
    else if IsUintName(name) then Some(UintParam)
    else if IsUlongName(name) then Some(UlongParam)
    else if IsSizeName(name) then Some(SizeParam)
    else None
  }

  /**
   * The switch and the table agree: a name falls in a class exactly when the
   * class lists it, so the classes are disjoint and any unlisted name falls
   * in none.
   */
  lemma ClassOfIffListed(name: nat, c: ParamClass)
    ensures ClassOf(name) == Some(c) <==> Listed(c, name)
  {
  }

  /** How each class presents the driver's answer. */
  function ClassShape(c: ParamClass): (s: Shape) {
    match c
    case TextParam => TextOf
    case PlatformParam => HandleOf(PlatformId, None, true)
    case WorkItemSizesParam => NumbersOf
    case BoolParam => FlagOf
    case UlongParam => HalvesOf
    case _ => NumberOf
  }

  function DeviceInfoShape(name: nat): Option<Shape> {
    var c := ClassOf(name);
    if c.Some? then Some(ClassShape(c.value)) else None
  }

  /**
   * getDeviceInfo: the device (argument 0), then the switch.
   * MAX_WORK_ITEM_SIZES first asks for the dimension count (`dimStatus`),
   * then for that many sizes; every other class asks once.
   */
  function GetDeviceInfo(deviceArg: Value, name: nat, dimStatus: int, status: int, answer: Answer): (r: Call<Value>)
    requires IsObject(deviceArg) ==> deviceArg.Wrapped?
    requires DeviceInfoShape(name).Some? && status == CL_SUCCESS ==> Fits(DeviceInfoShape(name).value, answer)
    ensures !IsObject(deviceArg) ==> r == Threw(ArgType(0, "Object"))
    ensures IsObject(deviceArg) && ClassOf(name).None? ==> r == ThrowErr(CL_INVALID_VALUE)
    ensures IsObject(deviceArg) && IsTextName(name) && status == CL_SUCCESS ==> r == Returned(Str(answer.s))
    ensures IsObject(deviceArg) && IsNumberName(name) && status == CL_SUCCESS ==> r == Returned(Number(answer.n))
    ensures IsObject(deviceArg) && IsBoolName(name) && status == CL_SUCCESS ==> r == Returned(Bool(answer.n == CL_TRUE))
    ensures IsObject(deviceArg) && IsUlongName(name) && status == CL_SUCCESS ==> r == Returned(HalvesValue(answer.w))
    ensures IsObject(deviceArg) && name == CL_DEVICE_PLATFORM && status == CL_SUCCESS ==>
      r == Returned(if answer.p == NULL then Null else Wrapped(FromRaw(Legacy, PlatformId, answer.p)))
    ensures IsObject(deviceArg) && name == CL_DEVICE_MAX_WORK_ITEM_SIZES && dimStatus != CL_SUCCESS ==> r == ThrowErr(dimStatus)
    ensures IsObject(deviceArg) && name == CL_DEVICE_MAX_WORK_ITEM_SIZES && dimStatus == CL_SUCCESS && status == CL_SUCCESS ==>
      r == Returned(NumbersValue(answer.ns))
    ensures IsObject(deviceArg) && ClassOf(name).Some? && !(name == CL_DEVICE_MAX_WORK_ITEM_SIZES && dimStatus != CL_SUCCESS) ==>
      (r.Returned? <==> status == CL_SUCCESS) && (status != CL_SUCCESS ==> r == ThrowErr(status))
  {
    var device := ReqClArg(0, deviceArg);
    if device.Threw? then Threw(device.failure)
    else if name == CL_DEVICE_MAX_WORK_ITEM_SIZES && dimStatus != CL_SUCCESS then ThrowErr(dimStatus)
    else Query(Legacy, DeviceInfoShape(name), status, answer, Driver(map[], [])).0
  }

  /** The device type argument: DEVICE_TYPE_ALL when it is omitted. */
  function DeviceType(a: Value): (t: int)
    ensures IsEmpty(a) ==> t == CL_DEVICE_TYPE_ALL
    ensures !IsEmpty(a) ==> t == Int64Value(a)
  {
    if IsEmpty(a) then CL_DEVICE_TYPE_ALL else Int64Value(a)
  }

  /**
   * getDeviceIDs: count the devices, list them, then retain each one and
   * wrap it, in the driver's order. The type handed to the driver is part
   * of the result.
   */
  function GetDeviceIDs(platformArg: Value, typeArg: Value, countStatus: int, listStatus: int, ps: seq<Ptr>, d: Driver): (r: (Call<Value>, Driver, Option<int>))
    requires IsObject(platformArg) ==> platformArg.Wrapped?
    ensures !IsObject(platformArg) ==> r == (Threw(ArgType(0, "Object")), d, None)
    ensures IsObject(platformArg) ==> r.2 == Some(DeviceType(typeArg))
    ensures IsObject(platformArg) && (countStatus != CL_SUCCESS || listStatus != CL_SUCCESS) ==>
      r.0 == ThrowErr(if countStatus != CL_SUCCESS then countStatus else listStatus) && r.1 == d
    ensures r.0.Returned? ==>
      && r.0.value.Array? && |r.0.value.items| == |ps|
      && (forall k :: 0 <= k < |ps| ==> r.0.value.items[k] == Wrapped(FromRaw(Legacy, DeviceId, ps[k])))
      && r.1.log == d.log + RetainCalls(Device, ps)
    ensures IsObject(platformArg) && countStatus == CL_SUCCESS && listStatus == CL_SUCCESS ==>
      (r.0.Returned? <==> forall k :: 0 <= k < |ps| ==> Known(d, Device, ps[k]))
  {
    var platform := ReqClArg(0, platformArg);
    if platform.Threw? then (Threw(platform.failure), d, None)
    else
      var t := DeviceType(typeArg);
      if countStatus != CL_SUCCESS then (ThrowErr(countStatus), d, Some(t))
      else if listStatus != CL_SUCCESS then (ThrowErr(listStatus), d, Some(t))
      else
        RetainAndWrapSucceedsIffKnown(Legacy, DeviceId, Device, ps, d);
        var (hs, d') := RetainAndWrap(Legacy, DeviceId, Device, ps, d);
        (if hs.Returned? then Returned(HandlesValue(hs.value)) else Threw(hs.failure), d', Some(t))
  }

  /**
   * The device list clGetDeviceIDs reports comes back as wrappers that the
   * entry points taking device arrays read back as the same pointers, in
   * order; the retains cannot fail when no device pointer is null.
   */
  lemma DeviceIDsReadBack(platformArg: Value, typeArg: Value, ps: seq<Ptr>, d: Driver)
    requires platformArg.Wrapped?
    ensures var r := GetDeviceIDs(platformArg, typeArg, CL_SUCCESS, CL_SUCCESS, ps, d);
      && ((forall k :: 0 <= k < |ps| ==> ps[k] != NULL) ==> r.0.Returned?)
      && (r.0.Returned? ==> AllWrapped(r.0.value.items) && FromJsArray(r.0.value.items) == ps)
  {
    var r := GetDeviceIDs(platformArg, typeArg, CL_SUCCESS, CL_SUCCESS, ps, d);
    if r.0.Returned? {
      assert r.0.value.items == WrapAll(Legacy, DeviceId, ps);
      FromJsArrayWrapAll(Legacy, DeviceId, ps);
    }
  }

  /**
   * The parent the guard sees: the driver's answer to DEVICE_PARENT_DEVICE,
   * or null when that query fails, since its status is not checked and the
   * variable starts out null.
   */
  function ParentSeen(parentStatus: int, parent: Ptr): Ptr {
    if parentStatus == CL_SUCCESS then parent else NULL
  }

  /**
   * retainDevice and releaseDevice (`retain` selects which): a device
   * without a parent throws INVALID_DEVICE before anything reaches the
   * driver; a sub-device is forwarded and its status checked.
   */
  function DeviceRefCall(retain: bool, a: Value, parentStatus: int, parent: Ptr, d: Driver): (r: (Call<int>, Driver))
    requires IsObject(a) ==> a.Wrapped?
    ensures !IsObject(a) ==> r == (Threw(ArgType(0, "Object")), d)
    ensures IsObject(a) && ParentSeen(parentStatus, parent) == NULL ==> r == (ThrowErr(CL_INVALID_DEVICE), d)
    ensures IsObject(a) && ParentSeen(parentStatus, parent) != NULL ==>
      r.1.log == d.log + [if retain then RetainCall(Device, As(a.h)) else ReleaseCall(Device, As(a.h))]
    ensures r.0.Returned? ==> r.0.value == CL_SUCCESS && ParentSeen(parentStatus, parent) != NULL
  {
    var device := ReqClArg(0, a);
    if device.Threw? then (Threw(device.failure), d)
    else if ParentSeen(parentStatus, parent) == NULL then (ThrowErr(CL_INVALID_DEVICE), d)
    else
      var (d', err) := if retain then DriverRetain(d, Device, device.value) else DriverRelease(d, Device, device.value);
      (CheckErr(err, Returned(err)), d')
  }

  /**
   * Section 4.3 of the OpenCL 1.2 specification makes retaining a root
   * device a successful no-op; the translator instead throws INVALID_DEVICE
   * and leaves the driver alone, for retain and release alike.
   */
  lemma RootDeviceGuardThrows(retain: bool, a: Value, parentStatus: int, parent: Ptr, d: Driver)
    requires a.Wrapped? && ParentSeen(parentStatus, parent) == NULL
    ensures DeviceRefCall(retain, a, parentStatus, parent, d) == (ThrowErr(CL_INVALID_DEVICE), d)
    ensures DeviceRefCall(retain, a, parentStatus, parent, d).0 != Returned(CL_SUCCESS)
  {
  }

  /** For a counted sub-device, retainDevice then releaseDevice succeed and restore every count. */
  lemma SubDeviceRetainReleaseNetZero(a: Value, parent: Ptr, d: Driver)
    requires a.Wrapped? && parent != NULL && As(a.h) in d.counts
    ensures var (r1, d1) := DeviceRefCall(true, a, CL_SUCCESS, parent, d);
      var (r2, d2) := DeviceRefCall(false, a, CL_SUCCESS, parent, d1);
      r1 == Returned(CL_SUCCESS) && r2 == Returned(CL_SUCCESS) && d2.counts == d.counts
  {
    var (r1, d1) := DeviceRefCall(true, a, CL_SUCCESS, parent, d);
    assert d1.counts == d.counts[As(a.h) := d.counts[As(a.h)] + 1];
  }
}
