/**
 * The command-queue translators of src/cpp/queue.cpp: the event and
 * blocking flags every enqueue shares, the host-memory check, the padding
 * of origin and region arrays to three entries, the work-size checks of
 * enqueueNDRangeKernel, the mapped-image size, the fill pattern, the
 * memory-object list of enqueueMigrateMemObjects and getCommandQueueInfo.
 *
 * The queue and memory-object wrappers every enqueue takes first go
 * through REQ_CL_ARG, modelled once in Wrapper.ReqClArg; the functions
 * below start after them.
 */
module Queue {
  import opened Native
  import opened Registry
  import opened Js
  import opened Status
  import opened Wrapper
  import opened Results
  import opened ClConst
  import opened Info

  /** GET_EVENT_FLAG: an output event is requested when the flag is given and truthy. */
  predicate EventRequested(flag: Value) {
    !IsEmpty(flag) && Truthy(flag)
  }

  /**
   * GET_BLOCK_FLAG: the map calls read the same flag as "blocking", ask for
   * an event only when not blocking, and tell the driver CL_TRUE exactly
   * when they ask for none.
   */
  function MapFlags(blockArg: Value): (r: (bool, nat))
    ensures r.0 <==> !(!IsEmpty(blockArg) && Truthy(blockArg))
    ensures r.1 == (if r.0 then CL_FALSE else CL_TRUE)
  {
    var wantsEvent := !EventRequested(blockArg);
    (wantsEvent, if wantsEvent then CL_FALSE else CL_TRUE)
  }

  /** RET_EVENT: the wrapped new event when one was requested, CL_SUCCESS otherwise. */
  function EventResult(wantsEvent: bool, ev: Ptr): Value {
    if wantsEvent then Wrapped(FromRaw(Legacy, EventId, ev)) else Number(CL_SUCCESS)
  }

  const NoDataMessage: string := "Could not read buffer data."

  /**
   * REQ_OBJ_ARG followed by getPtrAndLen and the check that follows it:
   * host memory must give a non-null pointer and a non-zero length.
   */
  function HostData(i: nat, buffer: Value): (r: Call<Ptr>)
    ensures !IsObject(buffer) ==> r == Threw(ArgType(i, "Object"))
    ensures r.Returned? <==> HoldsBytes(buffer) && buffer.data != NULL && buffer.byteLength > 0
    ensures r.Returned? ==> r.value == buffer.data
    ensures IsObject(buffer) && r.Threw? ==> r.failure == Plain(NoDataMessage)
  {
    if !IsObject(buffer) then Threw(ArgType(i, "Object"))
    else
      var (ptr, len) := GetPtrAndLen(buffer, true);
      if ptr == NULL || len.value == 0 then Threw(Plain(NoDataMessage)) else Returned(ptr)
  }

  /** What an enqueue hands the driver besides its own arguments. */
  datatype Submitted = Submitted(host: Ptr, waitList: seq<Ptr>, wantsEvent: bool)

  /**
   * The common tail of the enqueue translators: the host-memory check when
   * the call takes host memory (before anything reaches the driver), then
   * GET_WAIT_LIST_AND_EVENT, the driver call, CHECK_ERR and RET_EVENT.
   */
  function Enqueue(host: Option<(nat, Value)>, waitIndex: nat, waitArg: Value, flagArg: Value, status: int, ev: Ptr)
    : (r: (Call<Value>, Option<Submitted>))
    requires WaitListShape(waitArg)
    ensures host.Some? && HostData(host.value.0, host.value.1).Threw? ==>
      r == (Threw(HostData(host.value.0, host.value.1).failure), None)
    ensures r.1.Some? <==> (host.None? || HostData(host.value.0, host.value.1).Returned?) && (IsEmpty(waitArg) || waitArg.Array?)
    ensures r.1.Some? ==>
      && r.1.value.waitList == GetWaitList(waitIndex, waitArg).value
      && r.1.value.wantsEvent == EventRequested(flagArg)
      && r.1.value.host == (if host.Some? then host.value.1.data else NULL)
    ensures r.0.Returned? <==> r.1.Some? && status == CL_SUCCESS
    ensures r.1.Some? && status != CL_SUCCESS ==> r.0 == ThrowErr(status)
    ensures r.0.Returned? && EventRequested(flagArg) ==> r.0.value == Wrapped(FromRaw(Legacy, EventId, ev))
    ensures r.0.Returned? && !EventRequested(flagArg) ==> r.0.value == Number(CL_SUCCESS)
  {
    var data := if host.Some? then HostData(host.value.0, host.value.1) else Returned(NULL);
    if data.Threw? then (Threw(data.failure), None)
    else
      var events := GetWaitList(waitIndex, waitArg);
      if events.Threw? then (Threw(events.failure), None)
      else
        var wantsEvent := EventRequested(flagArg);
        (CheckErr(status, Returned(EventResult(wantsEvent, ev))), Some(Submitted(data.value, events.value, wantsEvent)))
  }

  /** An enqueue asked for no event returns CL_SUCCESS, one asked for an event returns exactly that event. */
  lemma EventFlagDecidesResult(waitArg: Value, flagArg: Value, ev: Ptr)
    requires WaitListShape(waitArg) && (IsEmpty(waitArg) || waitArg.Array?)
    ensures var r := Enqueue(None, 0, waitArg, flagArg, CL_SUCCESS, ev).0;
      r.Returned? && (r.value.Wrapped? <==> EventRequested(flagArg))
      && (r.value.Wrapped? ==> As(r.value.h) == ev)
  {
  }

  // Origin and region arrays.

  /** Get(i).ToNumber().Int64Value() on a JS array: past its end the element is undefined, which reads as 0. */
  function ReadSlot(items: seq<Value>, i: nat): int {
    if i < |items| then Int64Value(items[i]) else 0
  }

  /** The source's loop: slots i up to bound (exclusive) of a fixed-size array are read from the JS array. */
  function Overwrite(items: seq<Value>, arr: seq<int>, i: nat, bound: nat): (out: seq<int>)
    requires i <= bound <= |arr|
    ensures |out| == |arr|
    ensures forall j :: 0 <= j < |arr| ==> out[j] == (if i <= j < bound then ReadSlot(items, j) else arr[j])
    decreases bound - i
  {
    if i == bound then arr else Overwrite(items, arr[i := ReadSlot(items, i)], i + 1, bound)
  }

  const Origin0: seq<int> := [0, 0, 0]
  const Region0: seq<int> := [1, 1, 1]

  function Max(a: nat, b: nat): nat {
    if a < b then b else a
  }

  function Min(a: nat, b: nat): nat {
    if a < b then a else b
  }

  /**
   * The padding as written: the loop runs to max(length, 2), so an array
   * with fewer than two entries has slot 1 overwritten with 0, and one with
   * more than three writes past the three-slot array (None here).
   */
  function PadAsWritten(items: seq<Value>, init: seq<int>): (r: Option<seq<int>>)
    requires |init| == 3
    ensures r.None? <==> |items| > 3
  {
    var bound := Max(|items|, 2);
    if bound > 3 then None else Some(Overwrite(items, init, 0, bound))
  }

  /**
   * The padding the defaults {0, 0, 0} and {1, 1, 1} are evidently there
   * for: the given entries, at most three, replace the defaults; missing
   * entries keep them.
   */
  function Pad(items: seq<Value>, init: seq<int>): (r: seq<int>)
    requires |init| == 3
    ensures |r| == 3
    ensures forall j :: 0 <= j < 3 ==> r[j] == (if j < |items| then Int64Value(items[j]) else init[j])
  {
    Overwrite(items, init, 0, Min(|items|, 3))
  }

  /** The numbers of a JS array of numbers come back, followed by the defaults for the missing entries. */
  lemma PadKeepsGivenEntries(xs: seq<int>, init: seq<int>)
    requires |init| == 3 && |xs| <= 3
    ensures Pad(seq(|xs|, k requires 0 <= k < |xs| => Number(xs[k])), init) == xs + init[|xs|..]
  {
    var r := Pad(seq(|xs|, k requires 0 <= k < |xs| => Number(xs[k])), init);
    assert forall j :: 0 <= j < 3 ==> r[j] == (xs + init[|xs|..])[j];
  }

  /** The two paddings agree for arrays of two or three entries. */
  lemma PadAgreesFromTwoToThree(items: seq<Value>, init: seq<int>)
    requires |init| == 3 && 2 <= |items| <= 3
    ensures PadAsWritten(items, init) == Some(Pad(items, init))
  {
  }

  /**
   * A one-entry region [w] becomes [w, 0, 1] as written, a region with a
   * zero height, where [w, 1, 1] is meant; an empty region becomes [0, 0, 1];
   * a four-entry array writes past the end.
   */
  lemma PadAsWrittenCounterexamples()
    ensures PadAsWritten([Number(64)], Region0) == Some([64, 0, 1])
    ensures Pad([Number(64)], Region0) == [64, 1, 1]
    ensures PadAsWritten([], Region0) == Some([0, 0, 1])
    ensures Pad([], Region0) == Region0
    ensures PadAsWritten([Number(1), Number(2), Number(3), Number(4)], Origin0).None?
  {
    var a := PadAsWritten([Number(64)], Region0).value;
    assert a[0] == 64 && a[1] == 0 && a[2] == 1;
    assert a == [64, 0, 1];
    var b := Pad([Number(64)], Region0);
    assert b[0] == 64 && b[1] == 1 && b[2] == 1;
    assert b == [64, 1, 1];
    var c := PadAsWritten([], Region0).value;
    assert c[0] == 0 && c[1] == 0 && c[2] == 1;
    assert c == [0, 0, 1];
  }

  /** REQ_ARRAY_ARG: the argument must be a JS array. */
  function ReqArray(i: nat, a: Value): (r: Call<seq<Value>>)
    ensures r.Returned? <==> a.Array?
    ensures r.Returned? ==> r.value == a.items
    ensures r.Threw? ==> r.failure == ArgType(i, "Array")
  {
    if a.Array? then Returned(a.items) else Threw(ArgType(i, "Array"))
  }

  datatype ImageTransfer = ImageTransfer(origin: seq<int>, region: seq<int>, submitted: Submitted)

  /** An origin or region argument the padding loop stays inside of: not an array, or one of at most three entries. */
  predicate InsideThreeSlots(a: Value) {
    a.Array? ==> |a.items| <= 3
  }

  /**
   * enqueueReadImage and enqueueWriteImage: origin and region arrays
   * (arguments 3 and 4), padded as written; host memory (argument 7); the
   * wait list and event flag (arguments 8 and 9).
   */
  function EnqueueImageTransfer(originArg: Value, regionArg: Value, buffer: Value, waitArg: Value, flagArg: Value, status: int, ev: Ptr)
    : (r: (Call<Value>, Option<ImageTransfer>))
    requires WaitListShape(waitArg)
    requires InsideThreeSlots(originArg) && InsideThreeSlots(regionArg)
    ensures !originArg.Array? ==> r == (Threw(ArgType(3, "Array")), None)
    ensures originArg.Array? && !regionArg.Array? ==> r == (Threw(ArgType(4, "Array")), None)
    ensures r.1.Some? ==>
      && originArg.Array? && regionArg.Array?
      && Some(r.1.value.origin) == PadAsWritten(originArg.items, Origin0)
      && Some(r.1.value.region) == PadAsWritten(regionArg.items, Region0)
    ensures originArg.Array? && regionArg.Array? ==>
      var (call, sub) := Enqueue(Some((7, buffer)), 8, waitArg, flagArg, status, ev);
      r.0 == call && (sub.Some? <==> r.1.Some?) && (sub.Some? ==> r.1.value.submitted == sub.value)
  {
    var origin := ReqArray(3, originArg);
    if origin.Threw? then (Threw(origin.failure), None)
    else
      var region := ReqArray(4, regionArg);
      if region.Threw? then (Threw(region.failure), None)
      else
        var (call, sub) := Enqueue(Some((7, buffer)), 8, waitArg, flagArg, status, ev);
        var o := PadAsWritten(origin.value, Origin0).value;
        var g := PadAsWritten(region.value, Region0).value;
        (call, if sub.Some? then Some(ImageTransfer(o, g, sub.value)) else None)
  }

  /**
   * Full three-entry origin and region arrays reach the driver unchanged,
   * while a one-entry region [w] reaches it as [w, 0, 1], a zero height.
   */
  lemma ImageTransferRegions(origin: seq<int>, region: seq<int>, w: int, buffer: Value, flagArg: Value, ev: Ptr)
    requires |origin| == 3 && |region| == 3 && HostData(7, buffer).Returned?
    ensures var r := EnqueueImageTransfer(NumbersValue(origin), NumbersValue(region), buffer, Undefined, flagArg, CL_SUCCESS, ev);
      r.0.Returned? && r.1.Some? && r.1.value.origin == origin && r.1.value.region == region
    ensures var r := EnqueueImageTransfer(NumbersValue(origin), NumbersValue([w]), buffer, Undefined, flagArg, CL_SUCCESS, ev);
      r.1.Some? && r.1.value.region == [w, 0, 1]
  {
    PadAgreesFromTwoToThree(NumbersValue(origin).items, Origin0);
    PadAgreesFromTwoToThree(NumbersValue(region).items, Region0);
    assert NumbersValue(origin).items == seq(|origin|, k requires 0 <= k < |origin| => Number(origin[k]));
    assert NumbersValue(region).items == seq(|region|, k requires 0 <= k < |region| => Number(region[k]));
    PadKeepsGivenEntries(origin, Origin0);
    PadKeepsGivenEntries(region, Region0);
    var one := PadAsWritten(NumbersValue([w]).items, Region0).value;
    assert one[0] == w && one[1] == 0 && one[2] == 1;
    assert one == [w, 0, 1];
  }

  // enqueueNDRangeKernel.

  /**
   * One of the offset, global and local work-size arguments: absent means a
   * null pointer; otherwise an array of exactly work_dim entries, or the
   * call throws the given status. An empty vector is passed as null too.
   */
  function WorkSizes(i: nat, code: int, a: Value, dim: nat): (r: Call<Option<seq<int>>>)
    ensures IsEmpty(a) ==> r == Returned(None)
    ensures !IsEmpty(a) && !a.Array? ==> r == Threw(ArgType(i, "Array"))
    ensures a.Array? && |a.items| != dim ==> r == ThrowErr(code)
    ensures a.Array? && |a.items| == dim ==> r.Returned?
    ensures r.Returned? && r.value.Some? ==>
      a.Array? && |r.value.value| == dim == |a.items| > 0
      && forall k :: 0 <= k < dim ==> r.value.value[k] == Int64Value(a.items[k])
  {
    if IsEmpty(a) then Returned(None)
    else if !a.Array? then Threw(ArgType(i, "Array"))
    else if |a.items| != dim then ThrowErr(code)
    else if dim == 0 then Returned(None)
    else Returned(Some(seq(dim, k requires 0 <= k < dim => Int64Value(a.items[k]))))
  }

  datatype NDRange = NDRange(dim: nat, offset: Option<seq<int>>, global: Option<seq<int>>, local: Option<seq<int>>, submitted: Submitted)

  /** A work-size argument section 5.8 of the OpenCL 1.2 specification accepts as a work_dim-entry array or a null pointer. */
  predicate DimMatches(a: Value, dim: nat) {
    IsEmpty(a) || (a.Array? && |a.items| == dim)
  }

  /**
   * enqueueNDRangeKernel: offset, global and local are checked in that
   * order against work_dim (INVALID_GLOBAL_OFFSET, INVALID_GLOBAL_WORK_SIZE,
   * INVALID_WORK_GROUP_SIZE), then the wait list and event flag.
   */
  function EnqueueNDRangeKernel(dim: nat, offsetArg: Value, globalArg: Value, localArg: Value, waitArg: Value, flagArg: Value, status: int, ev: Ptr)
    : (r: (Call<Value>, Option<NDRange>))
    requires WaitListShape(waitArg)
    ensures offsetArg.Array? && |offsetArg.items| != dim ==> r == (ThrowErr(CL_INVALID_GLOBAL_OFFSET), None)
    ensures DimMatches(offsetArg, dim) && globalArg.Array? && |globalArg.items| != dim ==>
      r == (ThrowErr(CL_INVALID_GLOBAL_WORK_SIZE), None)
    ensures DimMatches(offsetArg, dim) && DimMatches(globalArg, dim) && localArg.Array? && |localArg.items| != dim ==>
      r == (ThrowErr(CL_INVALID_WORK_GROUP_SIZE), None)
    ensures r.1.Some? <==>
      DimMatches(offsetArg, dim) && DimMatches(globalArg, dim) && DimMatches(localArg, dim) && (IsEmpty(waitArg) || waitArg.Array?)
    ensures r.1.Some? ==>
      && r.1.value.dim == dim
      && (r.1.value.offset.Some? <==> offsetArg.Array? && dim > 0)
      && (r.1.value.global.Some? <==> globalArg.Array? && dim > 0)
      && (r.1.value.local.Some? <==> localArg.Array? && dim > 0)
      && (r.1.value.offset.Some? ==> |r.1.value.offset.value| == |offsetArg.items| == dim && forall k :: 0 <= k < dim ==> r.1.value.offset.value[k] == Int64Value(offsetArg.items[k]))
      && (r.1.value.global.Some? ==> |r.1.value.global.value| == |globalArg.items| == dim && forall k :: 0 <= k < dim ==> r.1.value.global.value[k] == Int64Value(globalArg.items[k]))
      && (r.1.value.local.Some? ==> |r.1.value.local.value| == |localArg.items| == dim && forall k :: 0 <= k < dim ==> r.1.value.local.value[k] == Int64Value(localArg.items[k]))
    ensures r.0.Returned? <==> r.1.Some? && status == CL_SUCCESS
  {
    var offset := WorkSizes(3, CL_INVALID_GLOBAL_OFFSET, offsetArg, dim);
    if offset.Threw? then (Threw(offset.failure), None)
    else
      var global := WorkSizes(4, CL_INVALID_GLOBAL_WORK_SIZE, globalArg, dim);
      if global.Threw? then (Threw(global.failure), None)
      else
        var local := WorkSizes(5, CL_INVALID_WORK_GROUP_SIZE, localArg, dim);
        if local.Threw? then (Threw(local.failure), None)
        else
          var (call, sub) := Enqueue(None, 6, waitArg, flagArg, status, ev);
          (call, if sub.Some? then Some(NDRange(dim, offset.value, global.value, local.value, sub.value)) else None)
  }

  /** Integer work sizes of the right dimension reach the driver unchanged, and in order. */
  lemma NDRangeNumbersPassThrough(xs: seq<int>, flagArg: Value, ev: Ptr)
    requires |xs| > 0
    ensures var r := EnqueueNDRangeKernel(|xs|, Undefined, NumbersValue(xs), Undefined, Undefined, flagArg, CL_SUCCESS, ev);
      && r.0.Returned? && r.1.Some?
      && r.1.value.offset.None? && r.1.value.local.None? && r.1.value.global == Some(xs)
  {
    var r := EnqueueNDRangeKernel(|xs|, Undefined, NumbersValue(xs), Undefined, Undefined, flagArg, CL_SUCCESS, ev);
    assert IsEmpty(Undefined) && DimMatches(NumbersValue(xs), |xs|);
    assert r.1.Some? && r.1.value.global.Some?;
    assert |r.1.value.global.value| == |xs|;
    forall k | 0 <= k < |xs|
      ensures r.1.value.global.value[k] == xs[k]
    {
      assert Int64Value(NumbersValue(xs).items[k]) == xs[k];
    }
    assert r.1.value.global.value == xs;
    assert r.0.Returned?;
    assert r.1.value.offset.None? && r.1.value.local.None?;
  }

  // The map calls.

  datatype MapCall = MapCall(blocking: nat, origin: seq<int>, region: seq<int>, waitList: seq<Ptr>, wantsEvent: bool)

  /**
   * The byte size of a mapped image: row_pitch times the region's height,
   * or slice_pitch times its depth when the driver reports a slice pitch.
   */
  function MapImageSize(rowPitch: nat, slicePitch: nat, region: seq<int>): (n: int)
    requires |region| == 3
    ensures slicePitch == 0 ==> n == rowPitch * region[1]
    ensures slicePitch != 0 ==> n == slicePitch * region[2]
  {
    if slicePitch != 0 then slicePitch * region[2] else rowPitch * region[1]
  }

  /**
   * The mapped size covers every row of the region: with a slice pitch of
   * at least row_pitch times the height, as section 5.4.2 of the OpenCL 1.2
   * specification has it, and a depth of at least one.
   */
  lemma MapImageSizeCoversRows(rowPitch: nat, slicePitch: nat, region: seq<int>)
    requires |region| == 3 && region[1] >= 0 && region[2] >= 1
    requires slicePitch != 0 ==> slicePitch >= rowPitch * region[1]
    ensures MapImageSize(rowPitch, slicePitch, region) >= rowPitch * region[1]
  {
    if slicePitch != 0 {
      assert slicePitch * region[2] >= slicePitch * 1;
    }
  }

  /** The object a map call returns: the mapped bytes and the event, null for a blocking call. */
  function MapResult(mPtr: Ptr, size: int, wantsEvent: bool, ev: Ptr, extra: map<string, Value>): Value {
    Object(extra["buffer" := ArrayBuffer(mPtr, if size < 0 then 0 else size)]["event" := if wantsEvent then Wrapped(FromRaw(Legacy, EventId, ev)) else Null])
  }

  /**
   * enqueueMapBuffer: the blocking flag, the wait list, one driver call
   * returning the mapped pointer and a status, and the result object.
   */
  function EnqueueMapBuffer(blockArg: Value, size: nat, waitArg: Value, status: int, mPtr: Ptr, ev: Ptr)
    : (r: (Call<Value>, Option<MapCall>))
    requires WaitListShape(waitArg)
    ensures r.1.Some? <==> IsEmpty(waitArg) || waitArg.Array?
    ensures r.1.Some? ==> r.1.value.blocking == MapFlags(blockArg).1 && r.1.value.wantsEvent == MapFlags(blockArg).0
    ensures r.0.Returned? <==> r.1.Some? && status == CL_SUCCESS
    ensures r.0.Returned? ==>
      && r.0.value.Object? && "event" in r.0.value.fields && "buffer" in r.0.value.fields
      && r.0.value.fields["buffer"] == ArrayBuffer(mPtr, size)
  {
    var events := GetWaitList(6, waitArg);
    if events.Threw? then (Threw(events.failure), None)
    else
      var (wantsEvent, blocking) := MapFlags(blockArg);
      (CheckErr(status, Returned(MapResult(mPtr, size, wantsEvent, ev, map[]))), Some(MapCall(blocking, [], [], events.value, wantsEvent)))
  }

  /** A map call's event is null exactly when it blocks, and then the driver was told CL_TRUE. */
  lemma MapEventNullIffBlocking(blockArg: Value, size: nat, waitArg: Value, mPtr: Ptr, ev: Ptr)
    requires WaitListShape(waitArg) && EnqueueMapBuffer(blockArg, size, waitArg, CL_SUCCESS, mPtr, ev).0.Returned?
    ensures var (r, call) := EnqueueMapBuffer(blockArg, size, waitArg, CL_SUCCESS, mPtr, ev);
      (r.value.fields["event"] == Null <==> !IsEmpty(blockArg) && Truthy(blockArg))
      && (r.value.fields["event"] == Null <==> call.value.blocking == CL_TRUE)
  {
  }

  /**
   * enqueueMapImage: as enqueueMapBuffer, with origin and region padded as
   * written, and a result whose size comes from the pitches the driver
   * reports and the padded region.
   */
  function EnqueueMapImage(blockArg: Value, originArg: Value, regionArg: Value, waitArg: Value, status: int,
                           mPtr: Ptr, rowPitch: nat, slicePitch: nat, ev: Ptr)
    : (r: (Call<Value>, Option<MapCall>))
    requires WaitListShape(waitArg)
    requires InsideThreeSlots(originArg) && InsideThreeSlots(regionArg)
    ensures !originArg.Array? ==> r == (Threw(ArgType(4, "Array")), None)
    ensures originArg.Array? && !regionArg.Array? ==> r == (Threw(ArgType(5, "Array")), None)
    ensures r.1.Some? <==> originArg.Array? && regionArg.Array? && (IsEmpty(waitArg) || waitArg.Array?)
    ensures r.1.Some? ==>
      && Some(r.1.value.origin) == PadAsWritten(originArg.items, Origin0)
      && Some(r.1.value.region) == PadAsWritten(regionArg.items, Region0)
      && r.1.value.blocking == MapFlags(blockArg).1
    ensures r.0.Returned? <==> r.1.Some? && status == CL_SUCCESS
    ensures r.0.Returned? ==>
      && r.0.value.Object? && "buffer" in r.0.value.fields
      && "image_row_pitch" in r.0.value.fields && "image_slice_pitch" in r.0.value.fields
      && r.0.value.fields["image_row_pitch"] == Number(rowPitch)
      && r.0.value.fields["image_slice_pitch"] == Number(slicePitch)
      && var n := MapImageSize(rowPitch, slicePitch, PadAsWritten(regionArg.items, Region0).value);
         r.0.value.fields["buffer"] == ArrayBuffer(mPtr, if n < 0 then 0 else n)
  {
    var origin := ReqArray(4, originArg);
    if origin.Threw? then (Threw(origin.failure), None)
    else
      var regionItems := ReqArray(5, regionArg);
      if regionItems.Threw? then (Threw(regionItems.failure), None)
      else
        var events := GetWaitList(6, waitArg);
        if events.Threw? then (Threw(events.failure), None)
        else
          var originSlots := PadAsWritten(origin.value, Origin0).value;
          var region := PadAsWritten(regionItems.value, Region0).value;
          var (wantsEvent, blocking) := MapFlags(blockArg);
          var pitches := map["image_row_pitch" := Number(rowPitch), "image_slice_pitch" := Number(slicePitch)];
          var size := MapImageSize(rowPitch, slicePitch, region);
          (CheckErr(status, Returned(MapResult(mPtr, size, wantsEvent, ev, pitches))), Some(MapCall(blocking, originSlots, region, events.value, wantsEvent)))
  }

  // enqueueFillBuffer and enqueueMigrateMemObjects.

  /** The fill pattern: a JS number is passed as the 8 bytes of a double; anything else must be host memory. */
  datatype Pattern = DoublePattern(n: int) | BytesPattern(p: Ptr, len: nat)

  function FillPattern(a: Value): (r: Call<Pattern>)
    ensures a.Number? ==> r == Returned(DoublePattern(a.n))
    ensures !a.Number? ==> (r.Returned? <==> HostData(2, a).Returned?)
    ensures !a.Number? && r.Returned? ==> r.value == BytesPattern(a.data, a.byteLength) && a.byteLength > 0
    ensures !a.Number? && r.Threw? ==> r.failure == HostData(2, a).failure
  {
    if a.Number? then Returned(DoublePattern(a.n))
    else
      var data := HostData(2, a);
      if data.Threw? then Threw(data.failure) else Returned(BytesPattern(data.value, a.byteLength))
  }

  /** The byte length of a pattern as clEnqueueFillBuffer receives it. */
  function PatternSize(p: Pattern): nat {
    match p
    case DoublePattern(_) => 8
    case BytesPattern(_, len) => len
  }

  /**
   * The pattern is accepted exactly when it is a number or non-null,
   * non-empty host memory; the driver then gets 8 bytes for a number and
   * the memory's byte length otherwise.
   */
  lemma FillPatternAcceptedIff(a: Value)
    ensures FillPattern(a).Returned? <==> a.Number? || (HoldsBytes(a) && a.data != NULL && a.byteLength > 0)
    ensures FillPattern(a).Returned? ==> PatternSize(FillPattern(a).value) == if a.Number? then 8 else a.byteLength
  {
  }

  /** A numeric pattern always reaches the driver as 8 bytes, whatever the number. */
  lemma NumericPatternIsDouble(n: int)
    ensures FillPattern(Number(n)).Returned? && PatternSize(FillPattern(Number(n)).value) == 8
  {
  }

  /**
   * enqueueMigrateMemObjects: every element of the list must be present
   * (the first empty one throws INVALID_MEM_OBJECT), then the wait list and
   * event flag; the driver gets the pointers in list order.
   */
  function EnqueueMigrateMemObjects(objArg: Value, waitArg: Value, flagArg: Value, status: int, ev: Ptr)
    : (r: (Call<Value>, Option<(seq<Ptr>, Submitted)>))
    requires objArg.Array? ==> forall k :: 0 <= k < |objArg.items| && !IsEmpty(objArg.items[k]) ==> objArg.items[k].Wrapped?
    requires WaitListShape(waitArg)
    ensures !objArg.Array? ==> r == (Threw(ArgType(1, "Array")), None)
    ensures objArg.Array? && (exists k :: 0 <= k < |objArg.items| && IsEmpty(objArg.items[k])) ==>
      r == (ThrowErr(CL_INVALID_MEM_OBJECT), None)
    ensures r.1.Some? ==>
      && objArg.Array? && |r.1.value.0| == |objArg.items|
      && forall k :: 0 <= k < |objArg.items| ==> r.1.value.0[k] == As(objArg.items[k].h)
    ensures r.0.Returned? <==> r.1.Some? && status == CL_SUCCESS
    ensures objArg.Array? && (forall k :: 0 <= k < |objArg.items| ==> !IsEmpty(objArg.items[k])) ==>
      (r.1.Some? <==> IsEmpty(waitArg) || waitArg.Array?)
  {
    var objs := ReqArray(1, objArg);
    if objs.Threw? then (Threw(objs.failure), None)
    else if exists k :: 0 <= k < |objs.value| && IsEmpty(objs.value[k]) then (ThrowErr(CL_INVALID_MEM_OBJECT), None)
    else
      var mems := FromJsArray(objs.value);
      var (call, sub) := Enqueue(None, 3, waitArg, flagArg, status, ev);
      (call, if sub.Some? then Some((mems, sub.value)) else None)
  }

  /** Memory objects wrapped from driver pointers reach clEnqueueMigrateMemObjects as those pointers, in order. */
  lemma MigratedObjectsUnwrap(ps: seq<Ptr>, flagArg: Value, ev: Ptr)
    ensures var r := EnqueueMigrateMemObjects(Array(WrapAll(Legacy, MemId, ps)), Undefined, flagArg, CL_SUCCESS, ev);
      r.0.Returned? && r.1.Some? && r.1.value.0 == ps
  {
    FromJsArrayWrapAll(Legacy, MemId, ps);
  }


  /** enqueueMarkerWithWaitList always asks for an event and returns it. */
  function EnqueueMarkerWithWaitList(waitArg: Value, status: int, ev: Ptr): (r: Call<Value>)
    requires WaitListShape(waitArg)
    ensures r.Returned? <==> (IsEmpty(waitArg) || waitArg.Array?) && status == CL_SUCCESS
    ensures r.Returned? ==> r.value == Wrapped(FromRaw(Legacy, EventId, ev))
  {
    var events := GetWaitList(1, waitArg);
    if events.Threw? then Threw(events.failure)
    else CheckErr(status, Returned(EventResult(true, ev)))
  }

  /** The marker event, put in a later wait list, reaches the driver as the marker's own event pointer. */
  lemma MarkerEventWaitsAsItself(waitArg: Value, ev: Ptr)
    requires WaitListShape(waitArg) && (IsEmpty(waitArg) || waitArg.Array?)
    ensures var r := EnqueueMarkerWithWaitList(waitArg, CL_SUCCESS, ev);
      && r.Returned? && WaitListShape(Array([r.value]))
      && GetWaitList(1, Array([r.value])) == Returned([ev])
  {
    var r := EnqueueMarkerWithWaitList(waitArg, CL_SUCCESS, ev);
    assert [r.value] == WrapAll(Legacy, EventId, [ev]);
    FromJsArrayWrapAll(Legacy, EventId, [ev]);
  }

  /** The answer shape of each getCommandQueueInfo name. */
  function QueueInfoShape(param: nat): Option<Shape> {
    if param == CL_QUEUE_CONTEXT then Some(HandleOf(ContextId, Some(Context), false))
    else if param == CL_QUEUE_DEVICE then Some(HandleOf(DeviceId, Some(Device), false))
    else if param == CL_QUEUE_REFERENCE_COUNT || param == CL_QUEUE_PROPERTIES then Some(NumberOf)
    else None
  }

  /**
   * getCommandQueueInfo: the queue (argument 0), then the switch: the
   * reference count and properties as numbers, and the context and device,
   * retained before they are wrapped; a root device's retain succeeds.
   */
  function GetCommandQueueInfo(queueArg: Value, param: nat, status: int, answer: Answer, d: Driver): (r: (Call<Value>, Driver))
    requires IsObject(queueArg) ==> queueArg.Wrapped?
    requires QueueInfoShape(param).Some? && status == CL_SUCCESS ==> Fits(QueueInfoShape(param).value, answer)
    ensures !IsObject(queueArg) ==> r == (Threw(ArgType(0, "Object")), d)
    ensures IsObject(queueArg) && QueueInfoShape(param).None? ==> r == (ThrowErr(CL_INVALID_VALUE), d)
    ensures IsObject(queueArg) && QueueInfoShape(param).Some? && status != CL_SUCCESS ==> r == (ThrowErr(status), d)
    ensures IsObject(queueArg) && (param == CL_QUEUE_REFERENCE_COUNT || param == CL_QUEUE_PROPERTIES) && status == CL_SUCCESS ==>
      r == (Returned(Number(answer.n)), d)
    ensures IsObject(queueArg) && param == CL_QUEUE_DEVICE && status == CL_SUCCESS ==>
      && r.1.log == d.log + [RetainCall(Device, answer.p)]
      && (r.0.Returned? <==> Known(d, Device, answer.p))
      && (r.0.Returned? ==> r.0.value == Wrapped(FromRaw(Legacy, DeviceId, answer.p)))
    ensures IsObject(queueArg) && param == CL_QUEUE_CONTEXT && status == CL_SUCCESS ==>
      && r.1.log == d.log + [RetainCall(Context, answer.p)]
      && (r.0.Returned? <==> answer.p in d.counts)
      && (r.0.Returned? ==> r.0.value == Wrapped(FromRaw(Legacy, ContextId, answer.p)))
  {
    var queue := ReqClArg(0, queueArg);
    if queue.Threw? then (Threw(queue.failure), d)
    else Query(Legacy, QueueInfoShape(param), status, answer, d)
  }
}
