/**
 * The retain* and release* entry points every object kind exports (kernel,
 * memory object, event, context, program, command queue, sampler): take a
 * wrapper as argument 0, call its acquire or release, throw a failing
 * status, and return CL_SUCCESS.
 */
module Lifecycle {
  import opened Native
  import opened Registry
  import opened Js
  import opened Status
  import opened Wrapper

  /** A wrapper of a counted object class, whose retain and release reach the driver. */
  predicate CountedWrapper(a: Value) {
    a.Wrapped? && a.h.acquire.ClRetain? && Paired(a.h)
  }

  /** retain*: REQ_WRAP_ARG(0), acquire(), CHECK_ERR, then CL_SUCCESS. */
  function RetainTranslator(a: Value, d: Driver): (r: (Call<int>, Driver))
    requires IsObject(a) ==> a.Wrapped?
    ensures !IsObject(a) ==> r == (Threw(ArgType(0, "Object")), d)
    ensures r.0.Returned? ==> r.0.value == CL_SUCCESS
    ensures CountedWrapper(a) ==> r.1.log == d.log + [RetainCall(a.h.acquire.obj, a.h.data)]
    ensures CountedWrapper(a) && a.h.data in d.counts ==>
      r.0.Returned? && r.1.counts == d.counts[a.h.data := d.counts[a.h.data] + 1]
    ensures CountedWrapper(a) && !Known(d, a.h.acquire.obj, a.h.data) ==>
      r == (ThrowErr(InvalidCode(a.h.acquire.obj)), r.1) && r.1.counts == d.counts
    ensures a.Wrapped? && a.h.acquire == Noop ==> r == (Returned(CL_SUCCESS), d)
  {
    var w := ReqWrapArg(0, a);
    if w.Threw? then (Threw(w.failure), d)
    else
      var (d', err) := Acquire(w.value, d);
      (CheckErr(err, Returned(CL_SUCCESS)), d')
  }

  /**
   * release*: REQ_WRAP_ARG(0), release(), CHECK_ERR, then CL_SUCCESS. The
   * wrapper object is returned too, since the types.cpp wrapper records in
   * it that it has released.
   */
  function ReleaseTranslator(v: Variant, a: Value, d: Driver): (r: (Call<int>, Value, Driver))
    requires IsObject(a) ==> a.Wrapped?
    ensures !IsObject(a) ==> r == (Threw(ArgType(0, "Object")), a, d)
    ensures r.0.Returned? ==> r.0.value == CL_SUCCESS
    ensures a.Wrapped? ==> r.1 == Wrapped(Release(v, a.h, d).0)
    ensures v == Legacy && a.Wrapped? && a.h.released ==> r == (Returned(CL_SUCCESS), a, d)
    ensures CountedWrapper(a) && !(v == Legacy && a.h.released) ==>
      r.2.log == d.log + [ReleaseCall(a.h.acquire.obj, a.h.data)]
    ensures CountedWrapper(a) && !(v == Legacy && a.h.released) && a.h.data in d.counts && d.counts[a.h.data] > 0 ==>
      r.0.Returned? && r.2.counts == d.counts[a.h.data := d.counts[a.h.data] - 1]
  {
    var w := ReqWrapArg(0, a);
    if w.Threw? then (Threw(w.failure), a, d)
    else
      var (h', d', err) := Release(v, w.value, d);
      (CheckErr(err, Returned(CL_SUCCESS)), Wrapped(h'), d')
  }

  /**
   * Retaining and then releasing a live wrapper through the exported entry
   * points succeeds twice and leaves every reference count as it was.
   */
  lemma RetainReleaseTranslatorsNetZero(v: Variant, a: Value, d: Driver)
    requires CountedWrapper(a) && !a.h.released && a.h.data in d.counts
    ensures var (r1, d1) := RetainTranslator(a, d);
      var (r2, _, d2) := ReleaseTranslator(v, a, d1);
      r1 == Returned(CL_SUCCESS) && r2 == Returned(CL_SUCCESS) && d2.counts == d.counts
  {
    var (r1, d1) := RetainTranslator(a, d);
    assert d1.counts[a.h.data] == d.counts[a.h.data] + 1;
  }
}
