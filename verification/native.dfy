/**
 * The OpenCL driver as the binding sees it: opaque pointers, a reference
 * count per live object, and a record of every retain and release the
 * binding forwards. The driver itself is outside this model; this module
 * gives retain and release the meaning section 5 of the OpenCL 1.2
 * specification assigns them, and nothing more.
 */
module Native {
  import opened Status

  /** An opaque driver pointer; 0 is the null pointer. */
  type Ptr = nat

  const NULL: Ptr := 0

  /** The classes of driver objects whose retain and release the binding forwards. */
  datatype ClObject = Context | Program | Kernel | MemObject | Sampler | CommandQueue | Event | Device

  /** One forwarded reference-count call, as it reaches the driver. */
  datatype NativeCall = RetainCall(obj: ClObject, p: Ptr) | ReleaseCall(obj: ClObject, p: Ptr)

  /**
   * The driver state: the reference count of every object it knows, and the
   * calls received so far. Root devices are not counted: retaining or
   * releasing one succeeds and changes nothing.
   */
  datatype Driver = Driver(counts: map<Ptr, nat>, log: seq<NativeCall>)

  /** The status the driver answers for a pointer of the given class that it does not know. */
  function InvalidCode(obj: ClObject): int {
    match obj
    case Context => CL_INVALID_CONTEXT
    case Program => CL_INVALID_PROGRAM
    case Kernel => CL_INVALID_KERNEL
    case MemObject => CL_INVALID_MEM_OBJECT
    case Sampler => CL_INVALID_SAMPLER
    case CommandQueue => CL_INVALID_COMMAND_QUEUE
    case Event => CL_INVALID_EVENT
    case Device => CL_INVALID_DEVICE
  }

  /** clRetain*: one more reference to a known object. */
  function DriverRetain(d: Driver, obj: ClObject, p: Ptr): (r: (Driver, int))
    ensures r.0.log == d.log + [RetainCall(obj, p)]
    ensures r.1 == CL_SUCCESS <==> p in d.counts || (obj == Device && p != NULL)
  {
    var logged := d.(log := d.log + [RetainCall(obj, p)]);
    if p in d.counts then (logged.(counts := d.counts[p := d.counts[p] + 1]), CL_SUCCESS)
    else if obj == Device && p != NULL then (logged, CL_SUCCESS)
    else (logged, InvalidCode(obj))
  }

  /** clRelease*: one reference fewer to a known object that still has one. */
  function DriverRelease(d: Driver, obj: ClObject, p: Ptr): (r: (Driver, int))
    ensures r.0.log == d.log + [ReleaseCall(obj, p)]
    ensures r.1 == CL_SUCCESS <==> (p in d.counts && d.counts[p] > 0) || (obj == Device && p != NULL && p !in d.counts)
  {
    var logged := d.(log := d.log + [ReleaseCall(obj, p)]);
    if p in d.counts && d.counts[p] > 0 then (logged.(counts := d.counts[p := d.counts[p] - 1]), CL_SUCCESS)
    else if obj == Device && p != NULL && p !in d.counts then (logged, CL_SUCCESS)
    else (logged, InvalidCode(obj))
  }

  /** The number of forwarded releases in a call record. */
  function Releases(log: seq<NativeCall>): nat {
    if log == [] then 0 else Releases(log[..|log| - 1]) + (if log[|log| - 1].ReleaseCall? then 1 else 0)
  }

  lemma ReleasesAppend(log: seq<NativeCall>, c: NativeCall)
    ensures Releases(log + [c]) == Releases(log) + (if c.ReleaseCall? then 1 else 0)
  {
    assert (log + [c])[..|log + [c]| - 1] == log;
  }

  /** A retain followed by a release of the same counted object restores its count. */
  lemma RetainThenReleaseRestores(d: Driver, obj: ClObject, p: Ptr)
    requires p in d.counts
    ensures DriverRelease(DriverRetain(d, obj, p).0, obj, p).0.counts == d.counts
    ensures DriverRelease(DriverRetain(d, obj, p).0, obj, p).1 == CL_SUCCESS
  {
  }
}
