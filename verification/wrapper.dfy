/**
 * The JS wrapper around a native handle: its constructor, acquire and
 * release, what its destructor does, and the argument helpers that unwrap
 * it again (src/cpp/types.cpp, src/cpp/types.hpp, src/cpp/wrapper.cpp).
 *
 * The two implementations differ in release: the types.cpp wrapper
 * releases at most once, guarded by its released flag, and also releases
 * from its destructor; the wrapper.cpp wrapper forwards every release and
 * its destructor does nothing.
 */
module Wrapper {
  import opened Native
  import opened Registry
  import opened Js
  import opened Status
  import opened Results

  /** The constructor's arguments are usable: a pointer and a table index. */
  predicate ValidArgs(a0: Value, a1: Value) {
    a0.External? && a1.Number?
  }

  /** The handle a failed construction leaves behind: the null pointer with table entry 0. */
  function Sentinel(v: Variant): Handle {
    var e := Table(v)[0];
    Handle(NULL, e.acquire, e.release, false, e.typeName)
  }

  const ConstructMessage: string := "Failed to construct a Wrapper."

  /**
   * The constructor: with an external and a number it takes the pointer and
   * the table entry the number selects; with anything else it becomes the
   * sentinel and throws. The index is not range-checked by the source, so
   * an index outside the table is a precondition here.
   */
  function Construct(v: Variant, a0: Value, a1: Value): (r: (Handle, Option<Failure>))
    requires ValidArgs(a0, a1) ==> 0 <= Int32Value(a1) < |Table(v)|
    ensures r.1.Some? <==> !ValidArgs(a0, a1)
    ensures r.1.Some? ==> r.0 == Sentinel(v) && r.1.value == Plain(ConstructMessage)
    ensures r.1.None? ==> r.0.data == a0.ptr && !r.0.released
    ensures r.1.None? ==> var e := Table(v)[Int32Value(a1)];
      r.0.typeName == e.typeName && r.0.acquire == e.acquire && r.0.release == e.release
  {
    if !ValidArgs(a0, a1) then
      (Sentinel(v), Some(Plain(ConstructMessage)))
    else
      var e := Table(v)[Int32Value(a1)];
      (Handle(a0.ptr, e.acquire, e.release, false, e.typeName), None)
  }

  /** The acquire and release of a handle belong together: both no-ops, or retain and release of one class. */
  predicate Paired(h: Handle) {
    (h.acquire == Noop && h.release == Noop) || (h.acquire.ClRetain? && h.release == ClRelease(h.acquire.obj))
  }

  /**
   * fromRaw (types.cpp) and Wrapper::from (wrapper.cpp): wrap a raw pointer
   * of a native type. The wrapper holds that pointer, carries the type's C
   * name, and acquires and releases exactly that type's object class.
   */
  function FromRaw(v: Variant, t: RawType, p: Ptr): (h: Handle)
    requires IndexOf(v, t).Some?
    ensures h.data == p && !h.released && h.typeName == RawTypeName(t)
    ensures Paired(h)
    ensures CountedClass(t).Some? ==> h.release == ClRelease(CountedClass(t).value)
    ensures CountedClass(t).None? ==> h.release == Noop
  {
    EntryMatchesClass(v, t);
    Construct(v, External(p), Number(IndexOf(v, t).value)).0
  }

  /** valueOf and the `_` getter (wrapper.cpp): the raw pointer as a number. */
  function ValueOf(h: Handle): Ptr {
    h.data
  }

  /** as<T>: the raw pointer reinterpreted as the requested handle type. */
  function As(h: Handle): Ptr {
    h.data
  }

  /** A wrapped pointer is read back unchanged through valueOf and as<T>. */
  lemma WrapUnwrapRoundTrip(v: Variant, t: RawType, p: Ptr)
    requires IndexOf(v, t).Some?
    ensures ValueOf(FromRaw(v, t, p)) == p && As(FromRaw(v, t, p)) == p
  {
  }

  /** The driver accepts a retain of this pointer. */
  predicate Known(d: Driver, obj: ClObject, p: Ptr) {
    p in d.counts || (obj == Device && p != NULL)
  }

  /** Runs one table function on a pointer; the no-op returns success without reaching the driver. */
  function Apply(fn: NativeFn, p: Ptr, d: Driver): (r: (Driver, int))
    ensures fn == Noop ==> r == (d, CL_SUCCESS)
    ensures fn.ClRetain? ==> r.0.log == d.log + [RetainCall(fn.obj, p)]
    ensures fn.ClRelease? ==> r.0.log == d.log + [ReleaseCall(fn.obj, p)]
  {
    match fn
    case Noop => (d, CL_SUCCESS)
    case ClRetain(obj) => DriverRetain(d, obj, p)
    case ClRelease(obj) => DriverRelease(d, obj, p)
  }

  /** acquire(): the kind's acquire function on the pointer. */
  function Acquire(h: Handle, d: Driver): (r: (Driver, int)) {
    Apply(h.acquire, h.data, d)
  }

  /**
   * release(): the types.cpp wrapper answers success without reaching the
   * driver once it has released; the wrapper.cpp wrapper forwards each call.
   */
  function Release(v: Variant, h: Handle, d: Driver): (r: (Handle, Driver, int))
    ensures v == Legacy && h.released ==> r == (h, d, CL_SUCCESS)
    ensures v == Legacy ==> r.0 == h.(released := true)
    ensures v == Current ==> r.0 == h
  {
    match v
    case Legacy =>
      if h.released then (h, d, CL_SUCCESS)
      else var (d', s) := Apply(h.release, h.data, d); (h.(released := true), d', s)
    case Current =>
      var (d', s) := Apply(h.release, h.data, d); (h, d', s)
  }

  /** The destructor: release() in types.cpp, nothing in wrapper.cpp. */
  function Destroy(v: Variant, h: Handle, d: Driver): Driver {
    match v
    case Legacy => Release(v, h, d).1
    case Current => d
  }

  /** What JS code can do with a wrapper: retain it or release it through the binding. */
  datatype Op = AcquireOp | ReleaseOp

  /** The state after a sequence of operations on one wrapper. */
  function Run(v: Variant, h: Handle, d: Driver, ops: seq<Op>): (Handle, Driver)
    decreases |ops|
  {
    if ops == [] then (h, d)
    else if ops[0] == AcquireOp then Run(v, h, Acquire(h, d).0, ops[1..])
    else var (h', d', _) := Release(v, h, d); Run(v, h', d', ops[1..])
  }

  /** The driver after a sequence of operations and then the garbage collection of the wrapper. */
  function Lifetime(v: Variant, h: Handle, d: Driver, ops: seq<Op>): Driver {
    var (h', d') := Run(v, h, d, ops);
    Destroy(v, h', d')
  }

  function CountReleaseOps(ops: seq<Op>): nat {
    if ops == [] then 0 else (if ops[0] == ReleaseOp then 1 else 0) + CountReleaseOps(ops[1..])
  }

  lemma {:induction false} RunLegacyInvariant(h: Handle, d: Driver, ops: seq<Op>)
    requires Paired(h)
    ensures var (h', d') := Run(Legacy, h, d, ops);
      && h'.data == h.data && h'.acquire == h.acquire && h'.release == h.release
      && (h.released ==> h'.released)
      && (!h'.released ==> ReleaseOp !in ops)
      && Releases(d'.log) == Releases(d.log) + (if !h.released && h'.released && h.release != Noop then 1 else 0)
    decreases |ops|
  {
    if ops != [] {
      var rest := ops[1..];
      assert ops == [ops[0]] + rest;
      if ops[0] == AcquireOp {
        var d1 := Acquire(h, d).0;
        if h.acquire != Noop {
          ReleasesAppend(d.log, RetainCall(h.acquire.obj, h.data));
        }
        RunLegacyInvariant(h, d1, rest);
      } else {
        var (h1, d1, _) := Release(Legacy, h, d);
        if !h.released && h.release != Noop {
          ReleasesAppend(d.log, ReleaseCall(h.release.obj, h.data));
        }
        RunLegacyInvariant(h1, d1, rest);
      }
    }
  }

  /**
   * The types.cpp wrapper reaches the driver's release exactly once over its
   * whole life, whatever JS does with it, when its kind is counted; never
   * for the uncounted kinds.
   */
  lemma {:induction false} LegacyReleasesOnce(h: Handle, d: Driver, ops: seq<Op>)
    requires Paired(h) && !h.released
    ensures Releases(Lifetime(Legacy, h, d, ops).log) == Releases(d.log) + (if h.release != Noop then 1 else 0)
  {
    RunLegacyInvariant(h, d, ops);
    var (h', d') := Run(Legacy, h, d, ops);
    if !h'.released && h.release != Noop {
      ReleasesAppend(d'.log, ReleaseCall(h.release.obj, h.data));
    }
  }

  /**
   * The wrapper.cpp wrapper reaches the driver's release once per release
   * JS asks for, and never from its destructor.
   */
  lemma {:induction false} CurrentForwardsEveryRelease(h: Handle, d: Driver, ops: seq<Op>)
    requires Paired(h)
    ensures Releases(Lifetime(Current, h, d, ops).log) == Releases(d.log) + (if h.release != Noop then CountReleaseOps(ops) else 0)
    decreases |ops|
  {
    if ops != [] {
      if ops[0] == AcquireOp {
        if h.acquire != Noop {
          ReleasesAppend(d.log, RetainCall(h.acquire.obj, h.data));
        }
        CurrentForwardsEveryRelease(h, Acquire(h, d).0, ops[1..]);
      } else {
        var (h1, d1, _) := Release(Current, h, d);
        if h.release != Noop {
          ReleasesAppend(d.log, ReleaseCall(h.release.obj, h.data));
        }
        CurrentForwardsEveryRelease(h1, d1, ops[1..]);
      }
    }
  }

  /** Wrappers of uncounted kinds, and the sentinel, never change the driver. */
  lemma {:induction false} UncountedWrapperInert(v: Variant, h: Handle, d: Driver, ops: seq<Op>)
    requires h.acquire == Noop && h.release == Noop
    ensures Lifetime(v, h, d, ops) == d
    decreases |ops|
  {
    if ops != [] {
      if ops[0] == AcquireOp {
        UncountedWrapperInert(v, h, d, ops[1..]);
      } else {
        UncountedWrapperInert(v, Release(v, h, d).0, d, ops[1..]);
      }
    }
  }

  lemma SentinelIsUncounted(v: Variant)
    ensures Sentinel(v).acquire == Noop && Sentinel(v).release == Noop && Sentinel(v).data == NULL
  {
  }

  /**
   * Retain, release, retain, release on a sampler whose count is c: the
   * wrapper.cpp wrapper ends at c, the types.cpp wrapper at c + 1, because
   * its second release never reaches the driver.
   */
  lemma RetainReleaseTwice(v: Variant, p: Ptr, d: Driver)
    requires p in d.counts && d.counts[p] >= 1
    ensures var d' := Run(v, FromRaw(v, SamplerId, p), d, [AcquireOp, ReleaseOp, AcquireOp, ReleaseOp]).1;
      p in d'.counts && d'.counts[p] == d.counts[p] + (if v == Legacy then 1 else 0)
  {
  }

  /** A retain and a release through an unreleased wrapper leave every count as it was. */
  lemma AcquireReleaseNetZero(v: Variant, h: Handle, d: Driver)
    requires Paired(h) && !h.released
    requires h.acquire != Noop ==> h.data in d.counts
    ensures Run(v, h, d, [AcquireOp, ReleaseOp]).1.counts == d.counts
  {
    if h.acquire != Noop {
      RetainThenReleaseRestores(d, h.acquire.obj, h.data);
    }
  }

  /** The message throwArrayEx (wrapper.cpp) throws for a bad array element. */
  function ArrayItemMessage(i: nat, msg: string): string {
    "Array item #" + NatToString(i) + " " + msg
  }

  function NatToString(n: nat): (s: string)
    ensures s != []
  {
    var digit := ['0', '1', '2', '3', '4', '5', '6', '7', '8', '9'][n % 10];
    if n < 10 then [digit] else NatToString(n / 10) + [digit]
  }

  /** REQ_WRAP_ARG: the argument must be an object, and is then taken to be a wrapper. */
  function ReqWrapArg(i: nat, a: Value): (r: Call<Handle>)
    requires IsObject(a) ==> a.Wrapped?
    ensures r.Returned? <==> IsObject(a)
    ensures r.Threw? ==> r.failure == ArgType(i, "Object")
    ensures r.Returned? ==> r.value == a.h
  {
    if IsObject(a) then Returned(a.h) else Threw(ArgType(i, "Object"))
  }

  /** REQ_CL_ARG: REQ_WRAP_ARG followed by as<T>. */
  function ReqClArg(i: nat, a: Value): (r: Call<Ptr>)
    requires IsObject(a) ==> a.Wrapped?
    ensures r.Returned? <==> ReqWrapArg(i, a).Returned?
    ensures r.Returned? ==> r.value == As(ReqWrapArg(i, a).value)
    ensures r.Threw? ==> r.failure == ReqWrapArg(i, a).failure
  {
    var w := ReqWrapArg(i, a);
    if w.Returned? then Returned(As(w.value)) else Threw(w.failure)
  }

  /** Every element of a JS array is a wrapper. */
  predicate AllWrapped(items: seq<Value>) {
    forall k :: 0 <= k < |items| ==> items[k].Wrapped?
  }

  /** fromJsArray: the raw pointers of the wrappers in the array, in array order. */
  function FromJsArray(items: seq<Value>): (out: seq<Ptr>)
    requires AllWrapped(items)
    ensures |out| == |items|
    ensures forall k :: 0 <= k < |items| ==> out[k] == As(items[k].h)
    decreases |items|
  {
    if items == [] then [] else FromJsArray(items[..|items| - 1]) + [As(items[|items| - 1].h)]
  }

  /** The JS array elements a caller holds after the binding wrapped each pointer of `ps`. */
  function WrapAll(v: Variant, t: RawType, ps: seq<Ptr>): (items: seq<Value>)
    requires IndexOf(v, t).Some?
    ensures |items| == |ps|
    ensures forall k :: 0 <= k < |ps| ==> items[k] == Wrapped(FromRaw(v, t, ps[k]))
  {
    seq(|ps|, k requires 0 <= k < |ps| => Wrapped(FromRaw(v, t, ps[k])))
  }

  /** fromJsArray reads the pointers of wrapped handles back unchanged, in order. */
  lemma FromJsArrayWrapAll(v: Variant, t: RawType, ps: seq<Ptr>)
    requires IndexOf(v, t).Some?
    ensures AllWrapped(WrapAll(v, t, ps)) && FromJsArray(WrapAll(v, t, ps)) == ps
  {
    var items := WrapAll(v, t, ps);
    forall k | 0 <= k < |ps|
      ensures As(items[k].h) == ps[k]
    {
      WrapUnwrapRoundTrip(v, t, ps[k]);
    }
  }

  /** A wait-list argument is empty, or an array of event wrappers. */
  predicate WaitListShape(a: Value) {
    a.Array? ==> AllWrapped(a.items)
  }

  /**
   * GET_WAIT_LIST: an omitted list is the empty list; otherwise the argument
   * must be an array, whose event pointers are passed on in order.
   */
  function GetWaitList(n: nat, a: Value): (r: Call<seq<Ptr>>)
    requires WaitListShape(a)
    ensures IsEmpty(a) ==> r == Returned([])
    ensures !IsEmpty(a) && !a.Array? ==> r == Threw(ArgType(n, "Array"))
    ensures a.Array? ==> r.Returned? && |r.value| == |a.items|
    ensures a.Array? ==> forall k :: 0 <= k < |a.items| ==> r.value[k] == As(a.items[k].h)
  {
    if IsEmpty(a) then Returned([])
    else if !a.Array? then Threw(ArgType(n, "Array"))
    else Returned(FromJsArray(a.items))
  }

  /** The retain calls a list of pointers produces, in order. */
  function RetainCalls(obj: ClObject, ptrs: seq<Ptr>): (calls: seq<NativeCall>)
    ensures |calls| == |ptrs|
    ensures forall k :: 0 <= k < |ptrs| ==> calls[k] == RetainCall(obj, ptrs[k])
  {
    seq(|ptrs|, k requires 0 <= k < |ptrs| => RetainCall(obj, ptrs[k]))
  }

  lemma RetainCallsSnoc(obj: ClObject, ptrs: seq<Ptr>)
    requires ptrs != []
    ensures RetainCalls(obj, ptrs) == RetainCalls(obj, ptrs[..|ptrs| - 1]) + [RetainCall(obj, ptrs[|ptrs| - 1])]
  {
  }

  /**
   * The loop that hands driver-owned pointers to JS: each pointer in turn is
   * retained and, if that succeeds, wrapped; the first failing retain throws
   * its status, keeping the retains already made.
   */
  function RetainAndWrap(v: Variant, t: RawType, obj: ClObject, ptrs: seq<Ptr>, d: Driver): (r: (Call<seq<Handle>>, Driver))
    requires IndexOf(v, t).Some?
    ensures r.0.Returned? ==> |r.0.value| == |ptrs| && r.1.log == d.log + RetainCalls(obj, ptrs)
    ensures r.0.Returned? ==> forall k :: 0 <= k < |ptrs| ==> r.0.value[k] == FromRaw(v, t, ptrs[k])
    ensures r.0.Threw? ==> r.0.failure.ClError? && r.0.failure.code != CL_SUCCESS
    decreases |ptrs|
  {
    if ptrs == [] then (Returned([]), d)
    else
      var last := ptrs[|ptrs| - 1];
      var (done, d1) := RetainAndWrap(v, t, obj, ptrs[..|ptrs| - 1], d);
      if done.Threw? then (done, d1)
      else
        var (d2, err) := DriverRetain(d1, obj, last);
        if err != CL_SUCCESS then (CheckErr(err, Returned([])), d2)
        else
          RetainCallsSnoc(obj, ptrs);
          (Returned(done.value + [FromRaw(v, t, last)]), d2)
  }

  /** All retains succeed exactly when the driver knows every pointer. */
  lemma {:induction false} RetainAndWrapSucceedsIffKnown(v: Variant, t: RawType, obj: ClObject, ptrs: seq<Ptr>, d: Driver)
    requires IndexOf(v, t).Some?
    ensures RetainAndWrap(v, t, obj, ptrs, d).0.Returned? <==> forall k :: 0 <= k < |ptrs| ==> Known(d, obj, ptrs[k])
    ensures RetainAndWrap(v, t, obj, ptrs, d).1.counts.Keys == d.counts.Keys
    decreases |ptrs|
  {
    if ptrs != [] {
      var prefix := ptrs[..|ptrs| - 1];
      RetainAndWrapSucceedsIffKnown(v, t, obj, prefix, d);
      assert forall k :: 0 <= k < |prefix| ==> prefix[k] == ptrs[k];
    }
  }
}
