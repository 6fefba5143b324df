/**
 * Status codes of the OpenCL 1.2 host API, the message table the binding
 * throws with (getExceptionMessage in src/cpp/common.cpp) and the two macros
 * that decide when a translated call aborts (CHECK_ERR and THROW_ERR in
 * src/cpp/common.hpp).
 *
 * The numeric values are those of the OpenCL 1.2 header cl.h.
 */
module Status {

  const CL_SUCCESS: int := 0
  const CL_DEVICE_NOT_FOUND: int := -1
  const CL_DEVICE_NOT_AVAILABLE: int := -2
  const CL_COMPILER_NOT_AVAILABLE: int := -3
  const CL_MEM_OBJECT_ALLOCATION_FAILURE: int := -4
  const CL_OUT_OF_RESOURCES: int := -5
  const CL_OUT_OF_HOST_MEMORY: int := -6
  const CL_PROFILING_INFO_NOT_AVAILABLE: int := -7
  const CL_MEM_COPY_OVERLAP: int := -8
  const CL_IMAGE_FORMAT_MISMATCH: int := -9
  const CL_IMAGE_FORMAT_NOT_SUPPORTED: int := -10
  const CL_BUILD_PROGRAM_FAILURE: int := -11
  const CL_MAP_FAILURE: int := -12
  const CL_MISALIGNED_SUB_BUFFER_OFFSET: int := -13
  const CL_EXEC_STATUS_ERROR_FOR_EVENTS_IN_WAIT_LIST: int := -14
  const CL_COMPILE_PROGRAM_FAILURE: int := -15
  const CL_LINKER_NOT_AVAILABLE: int := -16
  const CL_LINK_PROGRAM_FAILURE: int := -17
  const CL_DEVICE_PARTITION_FAILED: int := -18
  const CL_KERNEL_ARG_INFO_NOT_AVAILABLE: int := -19
  const CL_INVALID_VALUE: int := -30
  const CL_INVALID_DEVICE_TYPE: int := -31
  const CL_INVALID_PLATFORM: int := -32
  const CL_INVALID_DEVICE: int := -33
  const CL_INVALID_CONTEXT: int := -34
  const CL_INVALID_QUEUE_PROPERTIES: int := -35
  const CL_INVALID_COMMAND_QUEUE: int := -36
  const CL_INVALID_HOST_PTR: int := -37
  const CL_INVALID_MEM_OBJECT: int := -38
  const CL_INVALID_IMAGE_FORMAT_DESCRIPTOR: int := -39
  const CL_INVALID_IMAGE_SIZE: int := -40
  const CL_INVALID_SAMPLER: int := -41
  const CL_INVALID_BINARY: int := -42
  const CL_INVALID_BUILD_OPTIONS: int := -43
  const CL_INVALID_PROGRAM: int := -44
  const CL_INVALID_PROGRAM_EXECUTABLE: int := -45
  const CL_INVALID_KERNEL_NAME: int := -46
  const CL_INVALID_KERNEL_DEFINITION: int := -47
  const CL_INVALID_KERNEL: int := -48
  const CL_INVALID_ARG_INDEX: int := -49
  const CL_INVALID_ARG_VALUE: int := -50
  const CL_INVALID_ARG_SIZE: int := -51
  const CL_INVALID_KERNEL_ARGS: int := -52
  const CL_INVALID_WORK_DIMENSION: int := -53
  const CL_INVALID_WORK_GROUP_SIZE: int := -54
  const CL_INVALID_WORK_ITEM_SIZE: int := -55
  const CL_INVALID_GLOBAL_OFFSET: int := -56
  const CL_INVALID_EVENT_WAIT_LIST: int := -57
  const CL_INVALID_EVENT: int := -58
  const CL_INVALID_OPERATION: int := -59
  const CL_INVALID_GL_OBJECT: int := -60
  const CL_INVALID_BUFFER_SIZE: int := -61
  const CL_INVALID_MIP_LEVEL: int := -62
  const CL_INVALID_GLOBAL_WORK_SIZE: int := -63
  const CL_INVALID_PROPERTY: int := -64
  const CL_INVALID_IMAGE_DESCRIPTOR: int := -65
  const CL_INVALID_COMPILER_OPTIONS: int := -66
  const CL_INVALID_LINKER_OPTIONS: int := -67
  const CL_INVALID_DEVICE_PARTITION_COUNT: int := -68

  /** True exactly for the codes that getExceptionMessage names. */
  predicate Listed(code: int) {
    -19 <= code <= 0 || -68 <= code <= -30
  }

  const UnknownMessage: string := "Unknown error"

  /** The switch of getExceptionMessage: one fixed message per listed code. */
  function ExceptionMessage(code: int): (m: string)
  {
    if code == CL_SUCCESS then "Success!"
    else if code == CL_DEVICE_NOT_FOUND then "Device not found."
    else if code == CL_DEVICE_NOT_AVAILABLE then "Device not available"
    else if code == CL_COMPILER_NOT_AVAILABLE then "Compiler not available"
    else if code == CL_MEM_OBJECT_ALLOCATION_FAILURE then "Memory object allocation failure"
    else if code == CL_OUT_OF_RESOURCES then "Out of resources"
    else if code == CL_OUT_OF_HOST_MEMORY then "Out of host memory"
    else if code == CL_PROFILING_INFO_NOT_AVAILABLE then "Profiling information not available"
    else if code == CL_MEM_COPY_OVERLAP then "Memory copy overlap"
    else if code == CL_IMAGE_FORMAT_MISMATCH then "Image format mismatch"
    else if code == CL_IMAGE_FORMAT_NOT_SUPPORTED then "Image format not supported"
    else if code == CL_BUILD_PROGRAM_FAILURE then "Program build failure"
    else if code == CL_MAP_FAILURE then "Map failure"
    else if code == CL_MISALIGNED_SUB_BUFFER_OFFSET then "Misaligned sub-buffer offset"
    else if code == CL_EXEC_STATUS_ERROR_FOR_EVENTS_IN_WAIT_LIST then "Execution status error for events in wait list"
    else if code == CL_COMPILE_PROGRAM_FAILURE then "Compile program failure"
    else if code == CL_LINKER_NOT_AVAILABLE then "Linker not available"
    else if code == CL_LINK_PROGRAM_FAILURE then "Link program failure"
    else if code == CL_DEVICE_PARTITION_FAILED then "Device partition failed"
    else if code == CL_KERNEL_ARG_INFO_NOT_AVAILABLE then "Kernel argument info not available"
    else if code == CL_INVALID_VALUE then "Invalid value"
    else if code == CL_INVALID_DEVICE_TYPE then "Invalid device type"
    else if code == CL_INVALID_PLATFORM then "Invalid platform"
    else if code == CL_INVALID_DEVICE then "Invalid device"
    else if code == CL_INVALID_CONTEXT then "Invalid context"
    else if code == CL_INVALID_QUEUE_PROPERTIES then "Invalid queue properties"
    else if code == CL_INVALID_COMMAND_QUEUE then "Invalid command queue"
    else if code == CL_INVALID_HOST_PTR then "Invalid host pointer"
    else if code == CL_INVALID_MEM_OBJECT then "Invalid memory object"
    else if code == CL_INVALID_IMAGE_FORMAT_DESCRIPTOR then "Invalid image format descriptor"
    else if code == CL_INVALID_IMAGE_SIZE then "Invalid image size"
    else if code == CL_INVALID_SAMPLER then "Invalid sampler"
    else if code == CL_INVALID_BINARY then "Invalid binary"
    else if code == CL_INVALID_BUILD_OPTIONS then "Invalid build options"
    else if code == CL_INVALID_PROGRAM then "Invalid program"
    else if code == CL_INVALID_PROGRAM_EXECUTABLE then "Invalid program executable"
    else if code == CL_INVALID_KERNEL_NAME then "Invalid kernel name"
    else if code == CL_INVALID_KERNEL_DEFINITION then "Invalid kernel definition"
    else if code == CL_INVALID_KERNEL then "Invalid kernel"
    else if code == CL_INVALID_ARG_INDEX then "Invalid argument index"
    else if code == CL_INVALID_ARG_VALUE then "Invalid argument value"
    else if code == CL_INVALID_ARG_SIZE then "Invalid argument size"
    else if code == CL_INVALID_KERNEL_ARGS then "Invalid kernel arguments"
    else if code == CL_INVALID_WORK_DIMENSION then "Invalid work dimension"
    else if code == CL_INVALID_WORK_GROUP_SIZE then "Invalid work group size"
    else if code == CL_INVALID_WORK_ITEM_SIZE then "Invalid work item size"
    else if code == CL_INVALID_GLOBAL_OFFSET then "Invalid global offset"
    else if code == CL_INVALID_EVENT_WAIT_LIST then "Invalid event wait list"
    else if code == CL_INVALID_EVENT then "Invalid event"
    else if code == CL_INVALID_OPERATION then "Invalid operation"
    else if code == CL_INVALID_GL_OBJECT then "Invalid OpenGL object"
    else if code == CL_INVALID_BUFFER_SIZE then "Invalid buffer size"
    else if code == CL_INVALID_MIP_LEVEL then "Invalid mip-map level"
    else if code == CL_INVALID_GLOBAL_WORK_SIZE then "Invalid global work size"
    else if code == CL_INVALID_PROPERTY then "Invalid property"
    else if code == CL_INVALID_IMAGE_DESCRIPTOR then "Invalid image descriptor"
    else if code == CL_INVALID_COMPILER_OPTIONS then "Invalid compiler options"
    else if code == CL_INVALID_LINKER_OPTIONS then "Invalid linker options"
    else if code == CL_INVALID_DEVICE_PARTITION_COUNT then "Invalid device partition count"
    else UnknownMessage
  }

  /*
   * Distinctness of the messages is proved through a cheap summary of a
   * message (its length and three of its characters), which happens to be
   * injective on the 58 messages above, and a decoder from that summary back
   * to the code.
   */

  function CharAt(m: string, p: nat): int {
    if p < |m| then m[p] as int else 0
  }

  function Fingerprint(m: string): int {
    ((|m| * 128 + CharAt(m, 5)) * 128 + CharAt(m, 10)) * 128 + CharAt(m, 17)
  }

  function CodeOfFingerprint(f: int): int {
    if f == 18661376 then CL_SUCCESS
    else if f == 37310464 then CL_DEVICE_NOT_FOUND
    else if f == 43602018 then CL_DEVICE_NOT_AVAILABLE
    else if f == 47921132 then CL_COMPILER_NOT_AVAILABLE
    else if f == 69104367 then CL_MEM_OBJECT_ALLOCATION_FAILURE
    else if f == 35239808 then CL_OUT_OF_RESOURCES
    else if f == 39434873 then CL_OUT_OF_HOST_MEMORY
    else if f == 75183348 then CL_PROFILING_INFO_NOT_AVAILABLE
    else if f == 41843937 then CL_MEM_COPY_OVERLAP
    else if f == 44576993 then CL_IMAGE_FORMAT_MISMATCH
    else if f == 55062771 then CL_IMAGE_FORMAT_NOT_SUPPORTED
    else if f == 45642988 then CL_BUILD_PROGRAM_FAILURE
    else if f == 24670848 then CL_MAP_FAILURE
    else if f == 60444774 then CL_MISALIGNED_SUB_BUFFER_OFFSET
    else if f == 98384357 then CL_EXEC_STATUS_ERROR_FOR_EVENTS_IN_WAIT_LIST
    else if f == 50018273 then CL_COMPILE_PROGRAM_FAILURE
    else if f == 43815010 then CL_LINKER_NOT_AVAILABLE
    else if f == 43790581 then CL_LINK_PROGRAM_FAILURE
    else if f == 49904230 then CL_DEVICE_PARTITION_FAILED
    else if f == 73087726 then CL_KERNEL_ARG_INFO_NOT_AVAILABLE
    else if f == 28997120 then CL_INVALID_VALUE
    else if f == 41581424 then CL_INVALID_DEVICE_TYPE
    else if f == 35287168 then CL_INVALID_PLATFORM
    else if f == 31095552 then CL_INVALID_DEVICE
    else if f == 33191680 then CL_INVALID_CONTEXT
    else if f == 52065008 then CL_INVALID_QUEUE_PROPERTIES
    else if f == 45774581 then CL_INVALID_COMMAND_QUEUE
    else if f == 43678196 then CL_INVALID_HOST_PTR
    else if f == 45774570 then CL_INVALID_MEM_OBJECT
    else if f == 66744557 then CL_INVALID_IMAGE_FORMAT_DESCRIPTOR
    else if f == 39481573 then CL_INVALID_IMAGE_SIZE
    else if f == 33191552 then CL_INVALID_SAMPLER
    else if f == 31094528 then CL_INVALID_BINARY
    else if f == 45774057 then CL_INVALID_BUILD_OPTIONS
    else if f == 33191808 then CL_INVALID_PROGRAM
    else if f == 56260600 then CL_INVALID_PROGRAM_EXECUTABLE
    else if f == 41580909 then CL_INVALID_KERNEL_NAME
    else if f == 54163814 then CL_INVALID_KERNEL_DEFINITION
    else if f == 31095040 then CL_INVALID_KERNEL
    else if f == 47870953 then CL_INVALID_ARG_INDEX
    else if f == 47870966 then CL_INVALID_ARG_VALUE
    else if f == 45773811 then CL_INVALID_ARG_SIZE
    else if f == 52066663 then CL_INVALID_KERNEL_ARGS
    else if f == 47872366 then CL_INVALID_WORK_DIMENSION
    else if f == 49969520 then CL_INVALID_WORK_GROUP_SIZE
    else if f == 47872288 then CL_INVALID_WORK_ITEM_SIZE
    else if f == 45774822 then CL_INVALID_GLOBAL_OFFSET
    else if f == 49967860 then CL_INVALID_EVENT_WAIT_LIST
    else if f == 28996224 then CL_INVALID_EVENT
    else if f == 37384832 then CL_INVALID_OPERATION
    else if f == 45773546 then CL_INVALID_GL_OBJECT
    else if f == 41579386 then CL_INVALID_BUFFER_SIZE
    else if f == 45774949 then CL_INVALID_MIP_LEVEL
    else if f == 52066290 then CL_INVALID_GLOBAL_WORK_SIZE
    else if f == 35288960 then CL_INVALID_PROPERTY
    else if f == 52064483 then CL_INVALID_IMAGE_DESCRIPTOR
    else if f == 52066031 then CL_INVALID_COMPILER_OPTIONS
    else if f == 47871860 then CL_INVALID_LINKER_OPTIONS
    else if f == 64650098 then CL_INVALID_DEVICE_PARTITION_COUNT
    else 1
  }

  /** Recovers the status code from a message of the table; 1 (no code) for any other string. */
  function MessageCode(m: string): int {
    CodeOfFingerprint(Fingerprint(m))
  }

  lemma {:induction false} MessageCodeInvertsFrom0To7(code: int)
    requires -7 <= code <= 0
    ensures MessageCode(ExceptionMessage(code)) == code
  {
    if code == 0 {
    } else if code == -1 {
    } else if code == -2 {
    } else if code == -3 {
    } else if code == -4 {
    } else if code == -5 {
    } else if code == -6 {
    } else if code == -7 {
    }
  }

  lemma {:induction false} MessageCodeInvertsFrom8To15(code: int)
    requires -15 <= code <= -8
    ensures MessageCode(ExceptionMessage(code)) == code
  {
    if code == -8 {
    } else if code == -9 {
    } else if code == -10 {
    } else if code == -11 {
    } else if code == -12 {
    } else if code == -13 {
    } else if code == -14 {
    } else if code == -15 {
    }
  }

  lemma {:induction false} MessageCodeInvertsFrom16To19(code: int)
    requires -19 <= code <= -16
    ensures MessageCode(ExceptionMessage(code)) == code
  {
    if code == -16 {
    } else if code == -17 {
    } else if code == -18 {
    } else if code == -19 {
    }
  }

  lemma {:induction false} MessageCodeInvertsFrom30To37(code: int)
    requires -37 <= code <= -30
    ensures MessageCode(ExceptionMessage(code)) == code
  {
    if code == -30 {
    } else if code == -31 {
    } else if code == -32 {
    } else if code == -33 {
    } else if code == -34 {
    } else if code == -35 {
    } else if code == -36 {
    } else if code == -37 {
    }
  }

  lemma {:induction false} MessageCodeInvertsFrom38To45(code: int)
    requires -45 <= code <= -38
    ensures MessageCode(ExceptionMessage(code)) == code
  {
    if code == -38 {
    } else if code == -39 {
    } else if code == -40 {
    } else if code == -41 {
    } else if code == -42 {
    } else if code == -43 {
    } else if code == -44 {
    } else if code == -45 {
    }
  }

  lemma {:induction false} MessageCodeInvertsFrom46To53(code: int)
    requires -53 <= code <= -46
    ensures MessageCode(ExceptionMessage(code)) == code
  {
    if code == -46 {
    } else if code == -47 {
    } else if code == -48 {
    } else if code == -49 {
    } else if code == -50 {
    } else if code == -51 {
    } else if code == -52 {
    } else if code == -53 {
    }
  }

  lemma {:induction false} MessageCodeInvertsFrom54To61(code: int)
    requires -61 <= code <= -54
    ensures MessageCode(ExceptionMessage(code)) == code
  {
    if code == -54 {
    } else if code == -55 {
    } else if code == -56 {
    } else if code == -57 {
    } else if code == -58 {
    } else if code == -59 {
    } else if code == -60 {
    } else if code == -61 {
    }
  }

  lemma {:induction false} MessageCodeInvertsFrom62To68(code: int)
    requires -68 <= code <= -62
    ensures MessageCode(ExceptionMessage(code)) == code
  {
    if code == -62 {
    } else if code == -63 {
    } else if code == -64 {
    } else if code == -65 {
    } else if code == -66 {
    } else if code == -67 {
    } else if code == -68 {
    }
  }

  /** Every listed code is recovered from its message, so the listed messages are pairwise distinct. */
  lemma MessageCodeInverts(code: int)
    requires Listed(code)
    ensures MessageCode(ExceptionMessage(code)) == code
  {
    if -7 <= code { MessageCodeInvertsFrom0To7(code); }
    else if -15 <= code { MessageCodeInvertsFrom8To15(code); }
    else if -19 <= code { MessageCodeInvertsFrom16To19(code); }
    else if -37 <= code { MessageCodeInvertsFrom30To37(code); }
    else if -45 <= code { MessageCodeInvertsFrom38To45(code); }
    else if -53 <= code { MessageCodeInvertsFrom46To53(code); }
    else if -61 <= code { MessageCodeInvertsFrom54To61(code); }
    else { MessageCodeInvertsFrom62To68(code); }
  }

  /** A message names a listed code exactly when it is not the fallback text. */
  lemma ListedIffNamed(code: int)
    ensures Listed(code) <==> ExceptionMessage(code) != UnknownMessage
  {
    if Listed(code) {
      MessageCodeInverts(code);
      assert MessageCode(UnknownMessage) == 1;
    }
  }

  /** Different listed codes are thrown with different messages. */
  lemma ExceptionMessagesDistinct(a: int, b: int)
    requires Listed(a) && Listed(b) && a != b
    ensures ExceptionMessage(a) != ExceptionMessage(b)
  {
    MessageCodeInverts(a);
    MessageCodeInverts(b);
  }

  /**
   * Why a translated call threw. ClError records the OpenCL status whose
   * message is thrown (the JS error itself holds only the message text),
   * ArgType an argument that failed a type check of the argument helpers,
   * Plain a fixed message.
   */
  datatype Failure =
    | ClError(code: int)
    | ArgType(index: nat, expected: string)
    | Plain(text: string)
  {
    /** The status a ClError failure stands for; 0 for the other kinds. */
    function Code(): (c: int)
      ensures ClError? ==> c == code
    {
      if ClError? then code else 0
    }
  }

  /** The outcome of a call into the binding: a returned value or a thrown error. */
  datatype Call<+T> = Returned(value: T) | Threw(failure: Failure)

  /** The message of the error THROW_ERR raises for a status code. */
  function ThrownMessage(f: Failure): string
    requires f.ClError?
  {
    ExceptionMessage(f.code)
  }

  /**
   * CHECK_ERR: a non-success status throws at once, so whatever the call
   * would have gone on to compute is never produced.
   */
  function CheckErr<T>(code: int, rest: Call<T>): (r: Call<T>)
    ensures r.Returned? ==> code == CL_SUCCESS
    ensures code == CL_SUCCESS ==> r == rest
  {
    if code == CL_SUCCESS then rest else Threw(ClError(code))
  }

  /** THROW_ERR: always throws, with the message getExceptionMessage gives the status. */
  function ThrowErr<T>(code: int): (r: Call<T>)
    ensures r.Threw? && r.failure.ClError? && r.failure.Code() == code
    ensures ThrownMessage(r.failure) == ExceptionMessage(code)
  {
    Threw(ClError(code))
  }

  /** Once a status fails, the rest of the call does not influence the outcome. */
  lemma CheckErrIgnoresRest<T>(code: int, a: Call<T>, b: Call<T>)
    requires code != CL_SUCCESS
    ensures CheckErr(code, a) == CheckErr(code, b) == ThrowErr(code)
  {
  }

  /** An error thrown for a listed status carries that status's own message. */
  lemma ThrownMessageNamesCode(code: int)
    requires Listed(code)
    ensures var r: Call<()> := ThrowErr(code); MessageCode(ThrownMessage(r.failure)) == code
  {
    MessageCodeInverts(code);
  }
}
