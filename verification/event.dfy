/**
 * The event translators of src/cpp/event.cpp: waitForEvents, getEventInfo,
 * createUserEvent, setUserEventStatus and getEventProfilingInfo. The
 * asynchronous completion callback is not part of this model.
 */
module Event {
  import opened Native
  import opened Registry
  import opened Js
  import opened Status
  import opened Wrapper
  import opened Results
  import opened ClConst
  import opened Info
  import Split64

  /** waitForEvents: the wait list at argument 0, its length and contents passed through unchanged. */
  function WaitForEvents(waitArg: Value, status: int): (r: (Call<int>, Option<seq<Ptr>>))
    requires WaitListShape(waitArg)
    ensures IsEmpty(waitArg) ==> r.1 == Some([])
    ensures !IsEmpty(waitArg) && !waitArg.Array? ==> r == (Threw(ArgType(0, "Array")), None)
    ensures waitArg.Array? ==>
      && r.1.Some? && |r.1.value| == |waitArg.items|
      && forall k :: 0 <= k < |waitArg.items| ==> r.1.value[k] == As(waitArg.items[k].h)
    ensures r.0.Returned? <==> r.1.Some? && status == CL_SUCCESS
    ensures r.0.Returned? ==> r.0.value == CL_SUCCESS
  {
    var events := GetWaitList(0, waitArg);
    if events.Threw? then (Threw(events.failure), None)
    else (CheckErr(status, Returned(CL_SUCCESS)), Some(events.value))
  }

  /** Waiting on the events the binding handed out passes the driver's own event pointers, in order. */
  lemma WaitForWrappedEvents(evs: seq<Ptr>, status: int)
    ensures WaitListShape(Array(WrapAll(Legacy, EventId, evs)))
    ensures WaitForEvents(Array(WrapAll(Legacy, EventId, evs)), status).1 == Some(evs)
  {
    FromJsArrayWrapAll(Legacy, EventId, evs);
  }

  /** The answer shape of each getEventInfo name. */
  function EventInfoShape(param: nat): Option<Shape> {
    if param == CL_EVENT_COMMAND_QUEUE then Some(HandleOf(CommandQueueId, Some(CommandQueue), false))
    else if param == CL_EVENT_CONTEXT then Some(HandleOf(ContextId, Some(Context), false))
    else if param == CL_EVENT_COMMAND_TYPE || param == CL_EVENT_COMMAND_EXECUTION_STATUS
      || param == CL_EVENT_REFERENCE_COUNT then Some(NumberOf)
    else None
  }

  /**
   * getEventInfo: the event (argument 0), then the switch: the command type,
   * execution status and reference count as numbers, and the queue or the
   * context, retained before it is wrapped.
   */
  function GetEventInfo(evArg: Value, param: nat, status: int, answer: Answer, d: Driver): (r: (Call<Value>, Driver))
    requires IsObject(evArg) ==> evArg.Wrapped?
    requires EventInfoShape(param).Some? && status == CL_SUCCESS ==> Fits(EventInfoShape(param).value, answer)
    ensures !IsObject(evArg) ==> r == (Threw(ArgType(0, "Object")), d)
    ensures IsObject(evArg) && EventInfoShape(param).None? ==> r == (ThrowErr(CL_INVALID_VALUE), d)
    ensures IsObject(evArg) && EventInfoShape(param).Some? && status != CL_SUCCESS ==> r == (ThrowErr(status), d)
    ensures IsObject(evArg) && param == CL_EVENT_COMMAND_QUEUE && status == CL_SUCCESS ==>
      && r.1.log == d.log + [RetainCall(CommandQueue, answer.p)]
      && (r.0.Returned? <==> answer.p in d.counts)
      && (r.0.Returned? ==> r.0.value == Wrapped(FromRaw(Legacy, CommandQueueId, answer.p)))
    ensures IsObject(evArg) && param == CL_EVENT_CONTEXT && status == CL_SUCCESS ==>
      && r.1.log == d.log + [RetainCall(Context, answer.p)]
      && (r.0.Returned? <==> answer.p in d.counts)
      && (r.0.Returned? ==> r.0.value == Wrapped(FromRaw(Legacy, ContextId, answer.p)))
    ensures IsObject(evArg) && EventInfoShape(param) == Some(NumberOf) && status == CL_SUCCESS ==> r == (Returned(Number(answer.n)), d)
    ensures param != CL_EVENT_COMMAND_QUEUE && param != CL_EVENT_CONTEXT ==> r.1 == d
  {
    var ev := ReqClArg(0, evArg);
    if ev.Threw? then (Threw(ev.failure), d)
    else Query(Legacy, EventInfoShape(param), status, answer, d)
  }

  /** createUserEvent: one driver call, the new event wrapped. */
  function CreateUserEvent(ctxArg: Value, status: int, ev: Ptr): (r: Call<Value>)
    requires IsObject(ctxArg) ==> ctxArg.Wrapped?
    ensures !IsObject(ctxArg) ==> r == Threw(ArgType(0, "Object"))
    ensures IsObject(ctxArg) ==> (r.Returned? <==> status == CL_SUCCESS)
    ensures r.Returned? ==> r.value == Wrapped(FromRaw(Legacy, EventId, ev))
  {
    var ctx := ReqClArg(0, ctxArg);
    if ctx.Threw? then Threw(ctx.failure)
    else CheckErr(status, Returned(Wrapped(FromRaw(Legacy, EventId, ev))))
  }

  /** The user event handed out reads back, through as<cl_event>, as the driver's event. */
  lemma UserEventUnwraps(ctx: Handle, ev: Ptr)
    ensures var r := CreateUserEvent(Wrapped(ctx), CL_SUCCESS, ev);
      r.Returned? && r.value.Wrapped? && As(r.value.h) == ev
  {
    WrapUnwrapRoundTrip(Legacy, EventId, ev);
  }

  /** The cl_int the driver receives from a value read as a uint32. */
  function AsClInt(u: int): (s: int)
    requires 0 <= u < TwoTo32
    ensures -TwoTo31 <= s < TwoTo31
    ensures (s - u) % TwoTo32 == 0
  {
    if u < TwoTo31 then u else u - TwoTo32
  }

  /**
   * setUserEventStatus: the status is read as a uint32 (REQ_UINT32_ARG) and
   * handed to a cl_int parameter.
   */
  function SetUserEventStatus(evArg: Value, statusArg: Value, status: int): (r: (Call<int>, Option<int>))
    requires IsObject(evArg) ==> evArg.Wrapped?
    ensures !IsObject(evArg) ==> r == (Threw(ArgType(0, "Object")), None)
    ensures IsObject(evArg) ==> r.1 == Some(AsClInt(Uint32Value(statusArg)))
    ensures r.0.Returned? <==> IsObject(evArg) && status == CL_SUCCESS
    ensures r.0.Returned? ==> r.0.value == CL_SUCCESS
  {
    var ev := ReqClArg(0, evArg);
    if ev.Threw? then (Threw(ev.failure), None)
    else (CheckErr(status, Returned(CL_SUCCESS)), Some(AsClInt(Uint32Value(statusArg))))
  }

  /**
   * Reading a cl_int through uint32 loses nothing: CL_COMPLETE, and the
   * negative error statuses a user event may be set to, reach the driver
   * unchanged.
   */
  lemma UserEventStatusPassesThrough(evArg: Value, s: int, status: int)
    requires evArg.Wrapped? && -TwoTo31 <= s < TwoTo31
    ensures SetUserEventStatus(evArg, Number(s), status).1 == Some(s)
  {
    var u := Uint32Value(Number(s));
    assert u == s % TwoTo32;
  }

  /** The four names getEventProfilingInfo answers. */
  predicate ProfilingName(param: nat) {
    param == CL_PROFILING_COMMAND_QUEUED || param == CL_PROFILING_COMMAND_SUBMIT
    || param == CL_PROFILING_COMMAND_START || param == CL_PROFILING_COMMAND_END
  }

  function ProfilingShape(param: nat): Option<Shape> {
    if ProfilingName(param) then Some(HalvesOf) else None
  }

  /**
   * getEventProfilingInfo: the event (argument 0), then each of the four
   * timestamps as [hi, lo]; any other name throws INVALID_VALUE.
   */
  function GetEventProfilingInfo(evArg: Value, param: nat, status: int, answer: Answer): (r: Call<Value>)
    requires IsObject(evArg) ==> evArg.Wrapped?
    requires ProfilingName(param) && status == CL_SUCCESS ==> answer.WideAnswer?
    ensures !IsObject(evArg) ==> r == Threw(ArgType(0, "Object"))
    ensures IsObject(evArg) && !ProfilingName(param) ==> r == ThrowErr(CL_INVALID_VALUE)
    ensures IsObject(evArg) && ProfilingName(param) && status != CL_SUCCESS ==> r == ThrowErr(status)
    ensures IsObject(evArg) && ProfilingName(param) && status == CL_SUCCESS ==> r == Returned(HalvesValue(answer.w))
  {
    var ev := ReqClArg(0, evArg);
    if ev.Threw? then Threw(ev.failure)
    else Query(Legacy, ProfilingShape(param), status, answer, Driver(map[], [])).0
  }

  /** A profiling timestamp, read back from its JS halves, is the driver's cl_ulong. */
  lemma ProfilingTimestampRoundTrip(ev: Handle, param: nat, w: bv64)
    requires ProfilingName(param)
    ensures GetEventProfilingInfo(Wrapped(ev), param, CL_SUCCESS, WideAnswer(w)) == Returned(HalvesValue(w))
    ensures var h := HalvesValue(w); Split64.Join(h.items[0].n as bv64, h.items[1].n as bv64) == w
  {
    HalvesJoin(w);
  }
}
