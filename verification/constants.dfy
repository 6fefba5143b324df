/**
 * The parameter names and flags of the OpenCL 1.2 host API that the
 * translators switch on, with the values of the OpenCL 1.2 headers cl.h and
 * cl_ext.h (the NVIDIA device attributes) and cl_gl.h (the GL and WGL context
 * properties).
 */
module ClConst {

  const CL_FALSE: nat := 0
  const CL_TRUE: nat := 1

  /** The size of a pointer, a size_t and so of cl_device_id and cl_context_properties on the 64-bit hosts the binding targets. */
  const PointerSize: nat := 8

  const CL_DEVICE_TYPE_ALL: nat := 0xFFFF_FFFF

  // cl_device_info
  const CL_DEVICE_TYPE: nat := 0x1000
  const CL_DEVICE_VENDOR_ID: nat := 0x1001
  const CL_DEVICE_MAX_COMPUTE_UNITS: nat := 0x1002
  const CL_DEVICE_MAX_WORK_ITEM_DIMENSIONS: nat := 0x1003
  const CL_DEVICE_MAX_WORK_GROUP_SIZE: nat := 0x1004
  const CL_DEVICE_MAX_WORK_ITEM_SIZES: nat := 0x1005
  const CL_DEVICE_PREFERRED_VECTOR_WIDTH_CHAR: nat := 0x1006
  const CL_DEVICE_PREFERRED_VECTOR_WIDTH_SHORT: nat := 0x1007
  const CL_DEVICE_PREFERRED_VECTOR_WIDTH_INT: nat := 0x1008
  const CL_DEVICE_PREFERRED_VECTOR_WIDTH_LONG: nat := 0x1009
  const CL_DEVICE_PREFERRED_VECTOR_WIDTH_FLOAT: nat := 0x100A
  const CL_DEVICE_PREFERRED_VECTOR_WIDTH_DOUBLE: nat := 0x100B
  const CL_DEVICE_MAX_CLOCK_FREQUENCY: nat := 0x100C
  const CL_DEVICE_ADDRESS_BITS: nat := 0x100D
  const CL_DEVICE_MAX_READ_IMAGE_ARGS: nat := 0x100E
  const CL_DEVICE_MAX_WRITE_IMAGE_ARGS: nat := 0x100F
  const CL_DEVICE_MAX_MEM_ALLOC_SIZE: nat := 0x1010
  const CL_DEVICE_IMAGE2D_MAX_WIDTH: nat := 0x1011
  const CL_DEVICE_IMAGE2D_MAX_HEIGHT: nat := 0x1012
  const CL_DEVICE_IMAGE3D_MAX_WIDTH: nat := 0x1013
  const CL_DEVICE_IMAGE3D_MAX_HEIGHT: nat := 0x1014
  const CL_DEVICE_IMAGE3D_MAX_DEPTH: nat := 0x1015
  const CL_DEVICE_IMAGE_SUPPORT: nat := 0x1016
  const CL_DEVICE_MAX_PARAMETER_SIZE: nat := 0x1017
  const CL_DEVICE_MAX_SAMPLERS: nat := 0x1018
  const CL_DEVICE_MEM_BASE_ADDR_ALIGN: nat := 0x1019
  const CL_DEVICE_MIN_DATA_TYPE_ALIGN_SIZE: nat := 0x101A
  const CL_DEVICE_SINGLE_FP_CONFIG: nat := 0x101B
  const CL_DEVICE_GLOBAL_MEM_CACHE_TYPE: nat := 0x101C
  const CL_DEVICE_GLOBAL_MEM_CACHELINE_SIZE: nat := 0x101D
  const CL_DEVICE_GLOBAL_MEM_CACHE_SIZE: nat := 0x101E
  const CL_DEVICE_GLOBAL_MEM_SIZE: nat := 0x101F
  const CL_DEVICE_MAX_CONSTANT_BUFFER_SIZE: nat := 0x1020
  const CL_DEVICE_MAX_CONSTANT_ARGS: nat := 0x1021
  const CL_DEVICE_LOCAL_MEM_TYPE: nat := 0x1022
  const CL_DEVICE_LOCAL_MEM_SIZE: nat := 0x1023
  const CL_DEVICE_ERROR_CORRECTION_SUPPORT: nat := 0x1024
  const CL_DEVICE_PROFILING_TIMER_RESOLUTION: nat := 0x1025
  const CL_DEVICE_ENDIAN_LITTLE: nat := 0x1026
  const CL_DEVICE_AVAILABLE: nat := 0x1027
  const CL_DEVICE_COMPILER_AVAILABLE: nat := 0x1028
  const CL_DEVICE_EXECUTION_CAPABILITIES: nat := 0x1029
  const CL_DEVICE_QUEUE_PROPERTIES: nat := 0x102A
  const CL_DEVICE_NAME: nat := 0x102B
  const CL_DEVICE_VENDOR: nat := 0x102C
  const CL_DRIVER_VERSION: nat := 0x102D
  const CL_DEVICE_PROFILE: nat := 0x102E
  const CL_DEVICE_VERSION: nat := 0x102F
  const CL_DEVICE_EXTENSIONS: nat := 0x1030
  const CL_DEVICE_PLATFORM: nat := 0x1031
  const CL_DEVICE_DOUBLE_FP_CONFIG: nat := 0x1032
  const CL_DEVICE_HALF_FP_CONFIG: nat := 0x1033
  const CL_DEVICE_PREFERRED_VECTOR_WIDTH_HALF: nat := 0x1034
  const CL_DEVICE_HOST_UNIFIED_MEMORY: nat := 0x1035
  const CL_DEVICE_NATIVE_VECTOR_WIDTH_CHAR: nat := 0x1036
  const CL_DEVICE_NATIVE_VECTOR_WIDTH_SHORT: nat := 0x1037
  const CL_DEVICE_NATIVE_VECTOR_WIDTH_INT: nat := 0x1038
  const CL_DEVICE_NATIVE_VECTOR_WIDTH_LONG: nat := 0x1039
  const CL_DEVICE_NATIVE_VECTOR_WIDTH_FLOAT: nat := 0x103A
  const CL_DEVICE_NATIVE_VECTOR_WIDTH_DOUBLE: nat := 0x103B
  const CL_DEVICE_NATIVE_VECTOR_WIDTH_HALF: nat := 0x103C
  const CL_DEVICE_OPENCL_C_VERSION: nat := 0x103D
  const CL_DEVICE_IMAGE_MAX_BUFFER_SIZE: nat := 0x1040
  const CL_DEVICE_IMAGE_MAX_ARRAY_SIZE: nat := 0x1041
  const CL_DEVICE_PARENT_DEVICE: nat := 0x1042
  const CL_DEVICE_PARTITION_MAX_SUB_DEVICES: nat := 0x1043
  const CL_DEVICE_REFERENCE_COUNT: nat := 0x1047
  const CL_DEVICE_COMPUTE_CAPABILITY_MAJOR_NV: nat := 0x4000
  const CL_DEVICE_COMPUTE_CAPABILITY_MINOR_NV: nat := 0x4001
  const CL_DEVICE_REGISTERS_PER_BLOCK_NV: nat := 0x4002
  const CL_DEVICE_WARP_SIZE_NV: nat := 0x4003
  const CL_DEVICE_GPU_OVERLAP_NV: nat := 0x4004
  const CL_DEVICE_KERNEL_EXEC_TIMEOUT_NV: nat := 0x4005
  const CL_DEVICE_INTEGRATED_MEMORY_NV: nat := 0x4006

  // cl_context_info and cl_context_properties
  const CL_CONTEXT_REFERENCE_COUNT: nat := 0x1080
  const CL_CONTEXT_DEVICES: nat := 0x1081
  const CL_CONTEXT_PROPERTIES: nat := 0x1082
  const CL_CONTEXT_NUM_DEVICES: nat := 0x1083
  const CL_CONTEXT_PLATFORM: nat := 0x1084
  const CL_GL_CONTEXT_KHR: nat := 0x2008
  const CL_WGL_HDC_KHR: nat := 0x200B

  // cl_command_queue_info
  const CL_QUEUE_CONTEXT: nat := 0x1090
  const CL_QUEUE_DEVICE: nat := 0x1091
  const CL_QUEUE_REFERENCE_COUNT: nat := 0x1092
  const CL_QUEUE_PROPERTIES: nat := 0x1093

  // cl_mem_info and cl_image_info
  const CL_MEM_TYPE: nat := 0x1100
  const CL_MEM_FLAGS: nat := 0x1101
  const CL_MEM_SIZE: nat := 0x1102
  const CL_MEM_HOST_PTR: nat := 0x1103
  const CL_MEM_MAP_COUNT: nat := 0x1104
  const CL_MEM_REFERENCE_COUNT: nat := 0x1105
  const CL_MEM_CONTEXT: nat := 0x1106
  const CL_MEM_ASSOCIATED_MEMOBJECT: nat := 0x1107
  const CL_MEM_OFFSET: nat := 0x1108
  const CL_IMAGE_FORMAT: nat := 0x1110
  const CL_IMAGE_ELEMENT_SIZE: nat := 0x1111
  const CL_IMAGE_ROW_PITCH: nat := 0x1112
  const CL_IMAGE_SLICE_PITCH: nat := 0x1113
  const CL_IMAGE_WIDTH: nat := 0x1114
  const CL_IMAGE_HEIGHT: nat := 0x1115
  const CL_IMAGE_DEPTH: nat := 0x1116
  const CL_IMAGE_ARRAY_SIZE: nat := 0x1117
  const CL_IMAGE_BUFFER: nat := 0x1118
  const CL_IMAGE_NUM_MIP_LEVELS: nat := 0x1119
  const CL_IMAGE_NUM_SAMPLES: nat := 0x111A

  // cl_program_info and cl_program_build_info
  const CL_PROGRAM_REFERENCE_COUNT: nat := 0x1160
  const CL_PROGRAM_CONTEXT: nat := 0x1161
  const CL_PROGRAM_NUM_DEVICES: nat := 0x1162
  const CL_PROGRAM_DEVICES: nat := 0x1163
  const CL_PROGRAM_SOURCE: nat := 0x1164
  const CL_PROGRAM_BINARY_SIZES: nat := 0x1165
  const CL_PROGRAM_BINARIES: nat := 0x1166
  const CL_PROGRAM_NUM_KERNELS: nat := 0x1167
  const CL_PROGRAM_KERNEL_NAMES: nat := 0x1168
  const CL_PROGRAM_BUILD_STATUS: nat := 0x1181
  const CL_PROGRAM_BUILD_OPTIONS: nat := 0x1182
  const CL_PROGRAM_BUILD_LOG: nat := 0x1183
  const CL_PROGRAM_BINARY_TYPE: nat := 0x1184

  // cl_kernel_info, cl_kernel_arg_info and cl_kernel_work_group_info
  const CL_KERNEL_FUNCTION_NAME: nat := 0x1190
  const CL_KERNEL_NUM_ARGS: nat := 0x1191
  const CL_KERNEL_REFERENCE_COUNT: nat := 0x1192
  const CL_KERNEL_CONTEXT: nat := 0x1193
  const CL_KERNEL_PROGRAM: nat := 0x1194
  const CL_KERNEL_ATTRIBUTES: nat := 0x1195
  const CL_KERNEL_ARG_ADDRESS_QUALIFIER: nat := 0x1196
  const CL_KERNEL_ARG_ACCESS_QUALIFIER: nat := 0x1197
  const CL_KERNEL_ARG_TYPE_NAME: nat := 0x1198
  const CL_KERNEL_ARG_TYPE_QUALIFIER: nat := 0x1199
  const CL_KERNEL_ARG_NAME: nat := 0x119A
  const CL_KERNEL_ARG_ADDRESS_GLOBAL: nat := 0x119B
  const CL_KERNEL_ARG_ADDRESS_LOCAL: nat := 0x119C
  const CL_KERNEL_ARG_ADDRESS_CONSTANT: nat := 0x119D
  const CL_KERNEL_ARG_ADDRESS_PRIVATE: nat := 0x119E
  const CL_KERNEL_WORK_GROUP_SIZE: nat := 0x11B0
  const CL_KERNEL_COMPILE_WORK_GROUP_SIZE: nat := 0x11B1
  const CL_KERNEL_LOCAL_MEM_SIZE: nat := 0x11B2
  const CL_KERNEL_PREFERRED_WORK_GROUP_SIZE_MULTIPLE: nat := 0x11B3
  const CL_KERNEL_PRIVATE_MEM_SIZE: nat := 0x11B4
  const CL_KERNEL_GLOBAL_WORK_SIZE: nat := 0x11B5

  // cl_event_info and cl_profiling_info
  const CL_EVENT_COMMAND_QUEUE: nat := 0x11D0
  const CL_EVENT_COMMAND_TYPE: nat := 0x11D1
  const CL_EVENT_REFERENCE_COUNT: nat := 0x11D2
  const CL_EVENT_COMMAND_EXECUTION_STATUS: nat := 0x11D3
  const CL_EVENT_CONTEXT: nat := 0x11D4
  const CL_PROFILING_COMMAND_QUEUED: nat := 0x1280
  const CL_PROFILING_COMMAND_SUBMIT: nat := 0x1281
  const CL_PROFILING_COMMAND_START: nat := 0x1282
  const CL_PROFILING_COMMAND_END: nat := 0x1283

  // cl_buffer_create_type
  const CL_BUFFER_CREATE_TYPE_REGION: nat := 0x1220
}
