/**
 * The kinds of native handle the binding wraps, the per-kind table that
 * chooses a handle's release and acquire functions, and the state a wrapped
 * handle keeps.
 *
 * Two versions of the table exist side by side: the twelve-entry one of
 * src/cpp/types.cpp (used with types.hpp) and the ten-entry one of
 * src/cpp/wrapper.cpp (used with wrapper.hpp, by the program functions).
 */
module Registry {
  import opened Native
  import opened Results

  /** The function a table entry names: the no-op, or a retain or release of one object class. */
  datatype NativeFn = Noop | ClRetain(obj: ClObject) | ClRelease(obj: ClObject)

  /** One table entry: the kind's name and its release and acquire functions. */
  datatype TypeInfo = TypeInfo(typeName: string, release: NativeFn, acquire: NativeFn)

  /** Which of the two wrapper implementations is meant. */
  datatype Variant = Legacy | Current

  /** The native handle types the binding passes to the constructor of a wrapper. */
  datatype RawType =
    | PlatformId | DeviceId | ContextId | ProgramId | KernelId | MemId
    | SamplerId | CommandQueueId | EventId | ProgramBinary | MappedPtr

  /** The C name of a native handle type. */
  function RawTypeName(t: RawType): string {
    match t
    case PlatformId => "cl_platform_id"
    case DeviceId => "cl_device_id"
    case ContextId => "cl_context"
    case ProgramId => "cl_program"
    case KernelId => "cl_kernel"
    case MemId => "cl_mem"
    case SamplerId => "cl_sampler"
    case CommandQueueId => "cl_command_queue"
    case EventId => "cl_event"
    case ProgramBinary => "cl_program_binary"
    case MappedPtr => "cl_mapped_ptr"
  }

  /** The reference-counted object class behind a handle type, if it has one. */
  function CountedClass(t: RawType): Option<ClObject> {
    match t
    case ContextId => Some(Context)
    case ProgramId => Some(Program)
    case KernelId => Some(Kernel)
    case MemId => Some(MemObject)
    case SamplerId => Some(Sampler)
    case CommandQueueId => Some(CommandQueue)
    case EventId => Some(Event)
    case _ => None
  }

  /** The table of src/cpp/types.cpp, index 0 being the failure sentinel. */
  const LegacyTable: seq<TypeInfo> := [
    TypeInfo("ERROR", Noop, Noop),
    TypeInfo("cl_platform_id", Noop, Noop),
    TypeInfo("cl_device_id", Noop, Noop),
    TypeInfo("cl_context", ClRelease(Context), ClRetain(Context)),
    TypeInfo("cl_program", ClRelease(Program), ClRetain(Program)),
    TypeInfo("cl_kernel", ClRelease(Kernel), ClRetain(Kernel)),
    TypeInfo("cl_mem", ClRelease(MemObject), ClRetain(MemObject)),
    TypeInfo("cl_sampler", ClRelease(Sampler), ClRetain(Sampler)),
    TypeInfo("cl_command_queue", ClRelease(CommandQueue), ClRetain(CommandQueue)),
    TypeInfo("cl_event", ClRelease(Event), ClRetain(Event)),
    TypeInfo("cl_program_binary", Noop, Noop),
    TypeInfo("cl_mapped_ptr", Noop, Noop)
  ]

  /** The table of src/cpp/wrapper.cpp. */
  const CurrentTable: seq<TypeInfo> := [
    TypeInfo("ERROR", Noop, Noop),
    TypeInfo("cl_platform_id", Noop, Noop),
    TypeInfo("cl_device_id", Noop, Noop),
    TypeInfo("cl_context", ClRelease(Context), ClRetain(Context)),
    TypeInfo("cl_program", ClRelease(Program), ClRetain(Program)),
    TypeInfo("cl_kernel", ClRelease(Kernel), ClRetain(Kernel)),
    TypeInfo("cl_mem", ClRelease(MemObject), ClRetain(MemObject)),
    TypeInfo("cl_sampler", ClRelease(Sampler), ClRetain(Sampler)),
    TypeInfo("cl_command_queue", ClRelease(CommandQueue), ClRetain(CommandQueue)),
    TypeInfo("cl_event", ClRelease(Event), ClRetain(Event))
  ]

  function Table(v: Variant): seq<TypeInfo> {
    match v
    case Legacy => LegacyTable
    case Current => CurrentTable
  }

  /** The index fromRaw of src/cpp/types.cpp passes for a native handle type. */
  function LegacyIndex(t: RawType): (k: nat)
    ensures 1 <= k < |LegacyTable|
    ensures LegacyTable[k].typeName == RawTypeName(t)
  {
    match t
    case PlatformId => 1
    case DeviceId => 2
    case ContextId => 3
    case ProgramId => 4
    case KernelId => 5
    case MemId => 6
    case SamplerId => 7
    case CommandQueueId => 8
    case EventId => 9
    case ProgramBinary => 10
    case MappedPtr => 11
  }

  /** The index Wrapper::from of src/cpp/wrapper.cpp passes; it has no overload for binaries or mapped pointers. */
  function CurrentIndex(t: RawType): (k: Option<nat>)
    ensures k.Some? <==> t != ProgramBinary && t != MappedPtr
    ensures k.Some? ==> 1 <= k.value < |CurrentTable| && CurrentTable[k.value].typeName == RawTypeName(t)
  {
    match t
    case PlatformId => Some(1)
    case DeviceId => Some(2)
    case ContextId => Some(3)
    case ProgramId => Some(4)
    case KernelId => Some(5)
    case MemId => Some(6)
    case SamplerId => Some(7)
    case CommandQueueId => Some(8)
    case EventId => Some(9)
    case _ => None
  }

  /** The index the given variant's constructor helper passes for a handle type. */
  function IndexOf(v: Variant, t: RawType): Option<nat> {
    match v
    case Legacy => Some(LegacyIndex(t))
    case Current => CurrentIndex(t)
  }

  /**
   * The table entry a handle type selects pairs the release and acquire of
   * that type's own object class, or the no-op for the uncounted types.
   */
  lemma EntryMatchesClass(v: Variant, t: RawType)
    requires IndexOf(v, t).Some?
    ensures var e := Table(v)[IndexOf(v, t).value];
      && e.typeName == RawTypeName(t)
      && (CountedClass(t).Some? ==> e.release == ClRelease(CountedClass(t).value) && e.acquire == ClRetain(CountedClass(t).value))
      && (CountedClass(t).None? ==> e.release == Noop && e.acquire == Noop)
  {
  }

  /** The ten entries of the newer table are the first ten of the older one. */
  lemma CurrentIsLegacyPrefix()
    ensures |CurrentTable| == 10 && |LegacyTable| == 12
    ensures CurrentTable == LegacyTable[..10]
  {
  }

  /**
   * The state of one wrapped handle: the raw pointer, the acquire and
   * release functions its kind selected, whether release has already run
   * (meaningful for the types.cpp wrapper only) and the kind's name.
   */
  datatype Handle = Handle(data: Ptr, acquire: NativeFn, release: NativeFn, released: bool, typeName: string)
}
