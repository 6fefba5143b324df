# opencl-raub native binding, modelled in Dafny

This project models the C++ core of the `opencl` Node.js addon (node-3d/opencl-raub).
That core is a thin translation layer from JavaScript calls to the OpenCL 1.2 host API.

It models:

- the `Wrapper` handle that carries every OpenCL object into JavaScript, with its per-kind table of
  retain/release functions, in both implementations the repository carries: the older one of
  `src/cpp/types.cpp`, whose release is idempotent and also runs from the destructor, and the newer one
  of `src/cpp/wrapper.cpp`, which forwards every release;
- the status plumbing: the code-to-message table and the `CHECK_ERR`/`THROW_ERR` macros;
- the validation, dispatch and parsing rules inside the translators of kernel, queue, context, device,
  program, memory-object and event calls, each with its error outcomes.

The OpenCL driver is abstract (`Native.Driver`): a reference count per known pointer and a log of the
retain and release calls it has received. Every status the driver answers is a parameter of the
translator that receives it, and so is every pointer it hands out.

Modules, one per file:

| module | file | models |
|---|---|---|
| `Results` | results.dfy | `Option` |
| `Status` | status.dfy | `getExceptionMessage`, `CHECK_ERR`, `THROW_ERR`, the thrown failures |
| `ClConst` | constants.dfy | the OpenCL 1.2 constants the translators switch on (values from `cl.h`) |
| `Native` | native.dfy | the driver's reference counts and call log |
| `Js` | js.dfy | JS values, the integer conversions, `getPtrAndLen` |
| `Registry` | registry.dfy | the two `typeInfo` tables and the index each native type selects |
| `Wrapper` | wrapper.dfy | construction, acquire, release, destructor, `as<T>`, `fromJsArray`, `GET_WAIT_LIST`, `REQ_WRAP_ARG`, `REQ_CL_ARG` |
| `Lifecycle` | lifecycle.dfy | the exported `retain*`/`release*` entry points |
| `Split64` | split64.dfy | the [hi, lo] encoding of a `cl_ulong` |
| `Info` | info.dfy | what all `get*Info` translators share |
| `Kernel` | kernel.dfy | the primitive converter table, `setKernelArg`, kernel creation and info |
| `Queue` | queue.dfy | event and blocking flags, host data, origin/region padding, NDRange checks, map calls, fill, migrate, queue info |
| `Context` | context.dfy | the property-list parser, `createContext`, `createContextFromType`, `getContextInfo` |
| `Device` | device.dfy | `getDeviceIDs`, the `getDeviceInfo` classes, the root-device guard |
| `Program` | program.dfy | program creation, build/compile/link, program info |
| `Memobj` | memobj.dfy | buffers, sub-buffers, images, memory-object info |
| `Event` | event.dfy | wait, event info, user events, profiling info |

## Model

| member | source | states |
|---|---|---|
| Status.MessageCodeInverts | src/cpp/common.cpp:21-84 | every listed code's message decodes back to that code, so the table is injective on the listed codes |
| Status.ListedIffNamed | src/cpp/common.cpp:21-84 | a code gets a message other than "Unknown error" exactly when the switch lists it |
| Status.ExceptionMessagesDistinct | src/cpp/common.cpp:22-81 | two different listed codes are thrown with different messages |
| Status.CheckErr | src/cpp/common.hpp:36-39 | a call returns only when the status is CL_SUCCESS, and then it returns what the rest of the call computes |
| Status.ThrowErr | src/cpp/common.hpp:41-44 | always throws, a ClError of the given status, whose thrown message is the one getExceptionMessage gives that status |
| Status.CheckErrIgnoresRest | src/cpp/common.hpp:36-44 | once a status fails, nothing the call would go on to compute changes the outcome |
| Status.ThrownMessageNamesCode | src/cpp/common.hpp:41-44 | the message thrown for a listed status decodes back to that status |
| Js.GetPtrAndLen | src/cpp/common.cpp:6-17 | typed arrays, ArrayBuffers and Buffers give their data pointer and length; anything else gives null and 0; the length is written only when asked for |
| Js.PlainArrayHasNoData | src/cpp/common.cpp:9-13 | a plain JS array gives a null data pointer |
| Registry.LegacyIndex | src/cpp/types.cpp:43-75 | each native type selects an index from 1 to 11 whose entry carries that type's C name |
| Registry.CurrentIndex | src/cpp/wrapper.cpp:71-97 | each native type except binaries and mapped pointers selects an index from 1 to 9 whose entry carries that type's C name |
| Registry.EntryMatchesClass | src/cpp/types.cpp:17-30 | the entry a type selects pairs retain and release of that type's own object class, or the no-op for the uncounted types |
| Registry.CurrentIsLegacyPrefix | src/cpp/wrapper.cpp:17-56 | the newer table has 10 entries, the first 10 of the older table's 12 |
| Wrapper.Construct | src/cpp/types.cpp:78-101 | invalid arguments give the null-pointer sentinel with entry 0 and throw "Failed to construct a Wrapper."; valid ones keep the pointer unchanged, unreleased, with the selected entry |
| Wrapper.FromRaw | src/cpp/types.cpp:43-75 | a wrapped pointer keeps its value, its type's C name, and the retain/release pair of its type's class |
| Wrapper.WrapUnwrapRoundTrip | src/cpp/wrapper.cpp:133-139 | `valueOf`, the `_` getter and `as<T>` give back the pointer that was wrapped |
| Wrapper.Apply | src/cpp/types.cpp:13-15 | the no-op answers success and leaves the driver alone; retain and release each add one call to the driver's log |
| Wrapper.Release | src/cpp/types.cpp:121-127 | the older wrapper releases once, then answers success without reaching the driver; the newer one forwards every call |
| Wrapper.RunLegacyInvariant | src/cpp/types.cpp:116-127 | over any sequence of retains and releases, the older wrapper's driver releases number 1 once its flag is set and 0 before |
| Wrapper.LegacyReleasesOnce | src/cpp/types.cpp:104-127 | including its destructor, the older wrapper of a counted kind reaches the driver's release exactly once in its life |
| Wrapper.CurrentForwardsEveryRelease | src/cpp/wrapper.cpp:123-155 | the newer wrapper reaches the driver's release once per release asked for, and never from its destructor |
| Wrapper.UncountedWrapperInert | src/cpp/types.cpp:13-29 | wrappers of the no-op kinds never change the driver, whatever is done with them |
| Wrapper.SentinelIsUncounted | src/cpp/types.cpp:82-90 | the sentinel has a null pointer and the no-op acquire and release |
| Wrapper.RetainReleaseTwice | src/cpp/wrapper.cpp:148-155 | retain, release, retain, release on a sampler at count c ends at c with the newer wrapper and at c + 1 with the older one |
| Wrapper.AcquireReleaseNetZero | src/cpp/types.cpp:116-127 | an acquire followed by a release on an unreleased wrapper leaves every count as it was |
| Wrapper.ReqWrapArg | src/cpp/types.hpp:76-78 | succeeds exactly for objects, giving their handle; anything else throws the "Object" argument error |
| Wrapper.ReqClArg | src/cpp/types.hpp:80-82 | exactly `REQ_WRAP_ARG` followed by `as<T>` |
| Wrapper.FromJsArray | src/cpp/types.hpp:48-56 | the result has the array's length and element k is the pointer of wrapper k |
| Wrapper.GetWaitList | src/cpp/types.hpp:67-72 | an empty argument gives no events; a non-array throws; an array gives one event per element, in order |
| Wrapper.RetainAndWrap | src/cpp/device.cpp:29-34 | on success every pointer was retained in order and wrapped in the same order; a failing retain throws its status |
| Wrapper.RetainAndWrapSucceedsIffKnown | src/cpp/device.cpp:29-34 | the retain loop succeeds exactly when the driver knows every pointer, and it adds no driver objects |
| Lifecycle.RetainTranslator | src/cpp/context.cpp:100-109 | a non-object throws; a counted wrapper sends one retain, and the call returns CL_SUCCESS exactly when the driver knows the object |
| Lifecycle.ReleaseTranslator | src/cpp/context.cpp:113-122 | the older wrapper's second release returns CL_SUCCESS without reaching the driver; otherwise one release is sent and its status decides the outcome |
| Lifecycle.RetainReleaseTranslatorsNetZero | src/cpp/event.cpp:98-115 | retain then release through the entry points succeed and restore every count |
| Split64.Split | src/cpp/device.cpp:209-210 | both halves are below 2^32 |
| Split64.SplitArithmetic | src/cpp/device.cpp:209-210 | the halves are the quotient and remainder of the value by 2^32 |
| Split64.JoinSplit | src/cpp/device.cpp:212-213 | shifting the high half up by 32 bits and or-ing in the low half gives the value back |
| Split64.SplitJoin | src/cpp/device.cpp:205-214 | splitting inverts joining, so no two values share their halves |
| Info.HalvesValue | src/cpp/device.cpp:216-219 | a `cl_ulong` comes back as an array of two numbers, each below 2^32 |
| Info.HalvesJoin | src/cpp/device.cpp:205-219 | the two JS numbers join back to the driver's value |
| Info.Query | src/cpp/event.cpp:29-81 | an unlisted name throws INVALID_VALUE with the driver untouched; a failing query throws its status; on success a string answer is the driver's string, a number the driver's number, a flag true exactly for CL_TRUE, a cl_ulong its halves, a list the driver's numbers in order, a format the object of the driver's order and type, binaries one buffer each; a handle is JS null when nullable and null, otherwise wraps the driver's pointer, and is always returned when no retain is needed; device lists wrap the driver's devices in order; only retained handles and device lists change the driver |
| Info.RetainedHandleAnswer | src/cpp/event.cpp:34-56 | a handle answer is retained exactly once before it is wrapped, and returned exactly when that retain succeeds |
| Info.DevicesAnswer | src/cpp/context.cpp:148-167 | a device list gives one handle per device the driver reports (its byte size divided by sizeof(cl_device_id)), each retained in order and wrapped in order; it succeeds exactly when the driver knows every device |
| Info.HalvesAnswer | src/cpp/device.cpp:195-220 | a `cl_ulong` answer returns halves that join to the driver's value |
| Kernel.BaseName | src/cpp/kernel.cpp:102-112 | each scalar name has 3 to 6 characters |
| Kernel.BaseNamed | src/cpp/kernel.cpp:102-112 | a string names a scalar type only if that type's name is the string |
| Kernel.BaseNamedInverts | src/cpp/kernel.cpp:102-112 | every scalar type is found under its own name |
| Kernel.WidthNamed | src/cpp/kernel.cpp:157-162 | a suffix denotes a width only if it is the decimal text of 2, 3, 4, 8 or 16, and the empty suffix denotes a scalar |
| Kernel.ConverterFor | src/cpp/kernel.cpp:190-200 | every converter the lookup finds is an entry of the table |
| Kernel.ConverterForName | src/cpp/kernel.cpp:154-175 | every entry of the table is found under its own key |
| Kernel.ConverterForOnlyName | src/cpp/kernel.cpp:190-192 | a name is found only under the key of the entry it finds |
| Kernel.HasTypeIffTableName | src/cpp/kernel.cpp:157-192 | `hasType` holds exactly for the 11 scalar names, those names with 2, 3, 4, 8 or 16 appended, and "bool" |
| Kernel.ReadIntegers | src/cpp/kernel.cpp:140-151 | one integer per array element, in order |
| Kernel.ConvertAsWritten | src/cpp/kernel.cpp:118-185 | the converter setKernelArg uses: scalars need a number and take sizeof(type); vectors check array, then length (INVALID_ARG_SIZE), then numbers, and take N × sizeof(element) for width N; bool succeeds with 1 exactly for truthy values |
| Kernel.Convert | src/cpp/kernel.cpp:81-185 | scalars need a number and take sizeof(type); vectors check array, then length (INVALID_ARG_SIZE), then numbers; bool always succeeds with 1 exactly for truthy values |
| Kernel.ConvertedSizeIsTypeSize | src/cpp/kernel.cpp:137-138 | every converted vector has the size its OpenCL C type has, 3-vectors included |
| Kernel.ThreeVectorSizeAsWritten | src/cpp/kernel.cpp:137-159 | as written, a float3 is passed as 12 bytes where the type occupies 16 |
| Kernel.ConvertersAgreeBesideThreeVectors | src/cpp/kernel.cpp:118-185 | both converter tables agree on every type except 3-vectors |
| Kernel.SetKernelArg | src/cpp/kernel.cpp:204-303 | the first matching case decides: local size, memory object, sampler, the as-written converter, otherwise "Unsupported OpenCL argument type"; the driver gets exactly the converter's size and bytes, and the call returns 0 only after the driver accepts the argument |
| Kernel.TableNamesArePrimitives | src/cpp/kernel.cpp:226-285 | a converter key is never empty, a pointer, `cl_mem`, `sampler_t`, "local" or "__local", so setKernelArg reaches the converter for every key |
| Kernel.SetKernelArgPrimitive | src/cpp/kernel.cpp:272-303 | for every converter key, the driver receives exactly the converter's size and payload and the call returns exactly when the driver accepts; a converter error is thrown with nothing sent |
| Kernel.IntrospectedTypeAgrees | src/cpp/kernel.cpp:226-262 | an omitted type name behaves exactly as the type name the driver reports for the argument |
| Kernel.SetKernelArgFloat3AsWritten | src/cpp/kernel.cpp:137-159 | as written, `setKernelArg(k, i, "float3", [1, 2, 3])` hands the driver 12 bytes holding 1, 2, 3, where the OpenCL C type occupies 16 |
| Kernel.PointerNamesAreNotPrimitives | src/cpp/kernel.cpp:272-285 | pointer, `cl_mem` and `sampler_t` names are never converter keys, so the order of the cases does not hide a converter |
| Kernel.CreateKernel | src/cpp/kernel.cpp:11-20 | a program wrapper and a name string are required; the new kernel is returned exactly when the driver succeeds |
| Kernel.CreateKernelsInProgram | src/cpp/kernel.cpp:22-41 | a program without kernels throws INVALID_VALUE; otherwise the kernels are wrapped in driver order |
| Kernel.CreatedKernelsUnwrap | src/cpp/kernel.cpp:11-41 | the kernels createKernel and createKernelsInProgram hand out read back, through as<cl_kernel>, as the driver's kernels |
| Kernel.GetKernelInfo | src/cpp/kernel.cpp:305-363 | a non-object kernel throws the argument-0 type error; the attributes and function name come back as the driver's string, the argument and reference counts as its number; the context or program is retained once, returned exactly when the driver knows it, and then wraps the driver's pointer; other names leave the driver alone; a failing query throws its status; unlisted names throw INVALID_VALUE |
| Kernel.GetKernelArgInfo | src/cpp/kernel.cpp:365-432 | a non-object kernel throws the argument-0 type error; the address and access qualifiers come back as the driver's number; the type and argument names as the driver's string, after a sizing query whose failure is thrown; a failing query throws its status; unlisted names throw INVALID_VALUE |
| Kernel.IntrospectionMatchesArgInfo | src/cpp/kernel.cpp:226-262 | the address qualifier and type name setKernelArg reads for an omitted type are the ones getKernelArgInfo reports |
| Kernel.GetKernelWorkGroupInfo | src/cpp/kernel.cpp:434-499 | a non-object kernel or device throws the type error of its argument (0, then 1); GLOBAL_WORK_SIZE and COMPILE_WORK_GROUP_SIZE give the driver's three sizes in order; WORK_GROUP_SIZE and PREFERRED_WORK_GROUP_SIZE_MULTIPLE one number; the memory sizes [hi, lo] of the driver's value; a failing query throws its status; unlisted names throw INVALID_VALUE |
| Kernel.KernelMemSizeRoundTrip | src/cpp/kernel.cpp:469-496 | a local or private memory size comes back as the [hi, lo] pair of the driver's value, and that pair joins back to it |
| Queue.MapFlags | src/cpp/queue.cpp:14-18 | a map call asks for an event exactly when it is not blocking, and tells the driver CL_TRUE exactly when it asks for none |
| Queue.HostData | src/cpp/queue.cpp:141-150 | host memory is accepted exactly when it holds bytes at a non-null pointer with a non-zero length; otherwise "Could not read buffer data." is thrown |
| Queue.Enqueue | src/cpp/queue.cpp:135-166 | the host check runs before the driver; the call returns the wrapped event when one was requested and CL_SUCCESS otherwise |
| Queue.EventFlagDecidesResult | src/cpp/queue.cpp:8-29 | the event flag alone decides between returning an event and returning CL_SUCCESS |
| Queue.Overwrite | src/cpp/queue.cpp:188-196 | exactly the slots the loop visits are read from the JS array; the others keep their defaults |
| Queue.PadAsWritten | src/cpp/queue.cpp:181-196 | as written, an array longer than three entries writes past the three slots |
| Queue.Pad | src/cpp/queue.cpp:184-186 | the given entries replace the defaults and missing ones keep them |
| Queue.PadKeepsGivenEntries | src/cpp/queue.cpp:181-196 | padding an array of at most three numbers gives those numbers followed by the defaults |
| Queue.PadAgreesFromTwoToThree | src/cpp/queue.cpp:181-196 | both paddings agree on arrays of two or three entries |
| Queue.PadAsWrittenCounterexamples | src/cpp/queue.cpp:181-196 | as written, the region [64] becomes [64, 0, 1] and a four-entry origin writes past the end |
| Queue.ReqArray | src/cpp/queue.cpp:172-174 | succeeds exactly for arrays, giving their items |
| Queue.EnqueueImageTransfer | src/cpp/queue.cpp:438-486 | origin and region must be arrays, padded as written (slots 0 to max(len, 2) − 1 overwritten); the host check precedes the driver call |
| Queue.ImageTransferRegions | src/cpp/queue.cpp:181-196 | three-entry origin and region arrays reach the driver unchanged, while the one-entry region [w] reaches it as [w, 0, 1] |
| Queue.WorkSizes | src/cpp/queue.cpp:869-879 | an absent size is null; an array must have exactly work_dim entries or the call throws the given status |
| Queue.EnqueueNDRangeKernel | src/cpp/queue.cpp:860-920 | offset, global and local are checked in that order against work_dim and throw INVALID_GLOBAL_OFFSET, INVALID_GLOBAL_WORK_SIZE and INVALID_WORK_GROUP_SIZE; accepted sizes reach the driver entry by entry |
| Queue.NDRangeNumbersPassThrough | src/cpp/queue.cpp:860-920 | a global size of work_dim integers reaches the driver unchanged, with null offset and local size |
| Queue.MapImageSize | src/cpp/queue.cpp:780-783 | row_pitch times the height, or slice_pitch times the depth when the driver reports a slice pitch |
| Queue.MapImageSizeCoversRows | src/cpp/queue.cpp:780-783 | with the pitches section 5.4.2 of the OpenCL 1.2 specification guarantees, the mapped size covers every row of the region |
| Queue.EnqueueMapBuffer | src/cpp/queue.cpp:698-734 | the driver gets the inverted blocking flag; the result holds the mapped bytes and the event |
| Queue.MapEventNullIffBlocking | src/cpp/queue.cpp:713-731 | a map result's event is null exactly when the call blocks, and then the driver was told CL_TRUE |
| Queue.EnqueueMapImage | src/cpp/queue.cpp:736-797 | as the buffer map, with origin and region padded as written and a size computed from the reported pitches and the padded region |
| Queue.FillPattern | src/cpp/queue.cpp:327-341 | a number is passed as a double; anything else must be non-empty host memory |
| Queue.NumericPatternIsDouble | src/cpp/queue.cpp:329-332 | a numeric pattern always reaches the driver as 8 bytes |
| Queue.FillPatternAcceptedIff | src/cpp/queue.cpp:327-341 | a pattern is accepted exactly when it is a number or non-null, non-empty host memory, and then takes 8 bytes or the memory's byte length |
| Queue.EnqueueMigrateMemObjects | src/cpp/queue.cpp:829-858 | a non-array list throws the "Array" argument error; an empty element throws INVALID_MEM_OBJECT; otherwise the driver gets the pointers in list order |
| Queue.MigratedObjectsUnwrap | src/cpp/queue.cpp:829-858 | wrapped memory objects reach the driver as their own pointers, in order |
| Queue.EnqueueMarkerWithWaitList | src/cpp/queue.cpp:957-972 | always asks for an event and returns it, wrapping the driver's event |
| Queue.MarkerEventWaitsAsItself | src/cpp/queue.cpp:957-972 | the marker's event, put in a later wait list, reaches the driver as the marker's own event pointer |
| Queue.GetCommandQueueInfo | src/cpp/queue.cpp:62-115 | a non-object queue throws the argument-0 type error; the reference count and properties come back as the driver's number; the context or device is retained once, returned exactly when the driver knows it (any non-null device), and then wraps the driver's pointer; a failing query throws its status; unlisted names throw INVALID_VALUE |
| Context.ParseProperties | src/cpp/context.cpp:16-31 | the list always ends with a 0, and an empty property array gives [0] |
| Context.ParseEncodeRoundTrip | src/cpp/context.cpp:17-30 | parsing the JS encoding of a property list gives the native list section 4.4 of the OpenCL 1.2 specification expects |
| Context.CreateContext | src/cpp/context.cpp:14-52 | a property argument that is neither empty nor an array throws; the driver gets the parsed properties and the devices in order; null properties give [0]; the context is returned exactly on driver success |
| Context.CreateContextPassesThrough | src/cpp/context.cpp:14-52 | a caller's property list and device wrappers reach clCreateContext as the native zero-terminated list and the devices' pointers |
| Context.CreateContextFromType | src/cpp/context.cpp:61-95 | argument 0 must be an array; the driver gets the parsed properties and the device type |
| Context.ContextEntryPointsShareParser | src/cpp/context.cpp:63-78 | both entry points hand the driver the same list for the same property array |
| Context.Properties | src/cpp/context.cpp:169-184 | CONTEXT_PROPERTIES gives one number per entry the driver holds |
| Context.PropertiesAsWrittenOvercounts | src/cpp/context.cpp:169-184 | as written, the list is eight times too long |
| Context.GetContextInfo | src/cpp/context.cpp:130-193 | a non-object context throws the argument-0 type error; the reference and device counts come back as the driver's number; the devices are returned exactly when the driver knows each one, then as the driver's list, in order, each retained once; properties come back as written, PointerSize entries per driver entry, the driver's entries first; unlisted names throw INVALID_VALUE |
| Device.ClassOfIffListed | src/cpp/device.cpp:234-386 | a name falls in a class exactly when that class lists it, so the classes are disjoint and unlisted names fall in none |
| Device.GetDeviceInfo | src/cpp/device.cpp:351-386 | a non-object device throws the argument-0 type error; text names give the driver's string, the enum, bitfield, cl_uint and size_t names its number; bool is true exactly for CL_TRUE; ulong comes back as halves; MAX_WORK_ITEM_SIZES gives the driver's sizes in order; a null platform is JS null, any other the wrapped pointer; a failing query throws its status; unlisted names throw INVALID_VALUE |
| Device.DeviceType | src/cpp/device.cpp:15-15 | an omitted type is CL_DEVICE_TYPE_ALL |
| Device.GetDeviceIDs | src/cpp/device.cpp:13-37 | the devices are retained once each and wrapped in driver order |
| Device.DeviceIDsReadBack | src/cpp/device.cpp:13-37 | the returned device wrappers read back through fromJsArray as the driver's list, and the call cannot fail when no device pointer is null |
| Device.DeviceRefCall | src/cpp/device.cpp:436-482 | a device without a parent throws INVALID_DEVICE before the driver is reached; a sub-device is forwarded |
| Device.RootDeviceGuardThrows | src/cpp/device.cpp:439-451 | retaining or releasing a root device throws INVALID_DEVICE and leaves the driver alone |
| Device.SubDeviceRetainReleaseNetZero | src/cpp/device.cpp:461-482 | retainDevice then releaseDevice on a counted sub-device succeed and restore every count |
| Program.StringsOf | src/cpp/program.cpp:74-81 | the strings of an array exactly when every element is a string |
| Program.CreateProgramWithSource | src/cpp/program.cpp:9-20 | the driver gets the one source string; the program is returned exactly on driver success |
| Program.CreateProgramWithBinary | src/cpp/program.cpp:22-60 | an empty binaries array throws INVALID_VALUE; each binary gives its pointer and length, in order |
| Program.BinariesRoundTrip | src/cpp/program.cpp:22-60 | the binaries getProgramInfo hands out, passed back to createProgramWithBinary, reach the driver as the same pointers and lengths |
| Program.SplitJoinNames | src/cpp/program.cpp:89-94 | the ';'-joined list of names without ';' splits back into those names |
| Program.KernelNames | src/cpp/program.cpp:89-94 | the kernel_names argument names every given name, in order |
| Program.KernelNamesAsWrittenDropsNames | src/cpp/program.cpp:89-94 | as written, only the first name reaches the driver |
| Program.CreateProgramWithBuiltInKernels | src/cpp/program.cpp:62-100 | an empty names array or a non-string name throws INVALID_VALUE before the devices are read; as written, only the first name reaches the driver |
| Program.BuiltInKernelsSingleName | src/cpp/program.cpp:62-100 | device wrappers reach the driver as their pointers and a single name reaches it unchanged |
| Program.OptionsArg | src/cpp/program.cpp:131-146 | absent or empty options reach the driver as null; a non-string throws |
| Program.CallbackArg | src/cpp/program.cpp:139-159 | the notifying path is taken exactly when the callback argument is present |
| Program.BuildProgram | src/cpp/program.cpp:120-164 | the driver gets the devices, the options and whether a callback was given; success returns CL_SUCCESS |
| Program.CompileProgram | src/cpp/program.cpp:166-242 | header programs and header names must be equally many, and names must be strings, or INVALID_VALUE is thrown |
| Program.CompileHeadersRoundTrip | src/cpp/program.cpp:166-242 | header programs the binding handed out and their names reach the driver as the same pointers and names in order, with the same devices, and are accepted exactly when the two lists are equally long |
| Program.LinkProgram | src/cpp/program.cpp:244-304 | the driver gets the devices, the options and the input programs; the linked program is returned |
| Program.BuildAndLinkAgree | src/cpp/program.cpp:120-304 | build and link read devices, options and the callback the same way |
| Program.NewProgramUnwraps | src/cpp/program.cpp:9-100 | a program the creation entry points hand out reads back as the driver's program |
| Program.GetProgramInfo | src/cpp/program.cpp:314-471 | a non-object program throws the argument-0 type error; the reference, device and kernel counts come back as the driver's number, the kernel names and source as its string, the binary sizes as its numbers in order; the devices are retained and wrapped in order; the context is retained and wraps the driver's pointer; binaries come back as one ArrayBuffer each; a failing sizing query or query throws its status; unlisted names throw INVALID_VALUE |
| Program.GetProgramBuildInfo | src/cpp/program.cpp:473-528 | a non-object program or device throws the type error of its argument (0, then 1); the build status and binary type come back as the driver's number; options and log are sized first and come back as the driver's string; a failing query throws its status; unlisted names throw INVALID_VALUE |
| Program.BuildOptionsRoundTrip | src/cpp/program.cpp:120-164 | non-empty options given to buildProgram are what getProgramBuildInfo returns when the driver reports them |
| Memobj.CreateBuffer | src/cpp/memobj.cpp:13-37 | without host memory the driver gets null; with it, empty or unreadable memory throws before the driver call |
| Memobj.HostMemoryReachesDriver | src/cpp/memobj.cpp:13-37 | host memory reaches the driver as its own data pointer exactly when it is non-empty; empty host memory throws the no-data error with no driver call |
| Memobj.CreateSubBuffer | src/cpp/memobj.cpp:45-73 | only CL_BUFFER_CREATE_TYPE_REGION is accepted, with origin and size read from argument 3 |
| Memobj.SubBufferRegionRoundTrip | src/cpp/memobj.cpp:51-56 | a region written as {origin, size} reaches the driver unchanged |
| Memobj.Field | src/cpp/memobj.cpp:89-121 | a present key gives its converted value and a missing key gives 0 |
| Memobj.ImageFieldsAsWrittenAreZero | src/cpp/memobj.cpp:89-121 | as written, every format and descriptor number is 0 whatever the objects hold |
| Memobj.FormatRoundTrip | src/cpp/memobj.cpp:88-94 | reading back a format object gives the format it describes |
| Memobj.ImageFieldsRoundTrip | src/cpp/memobj.cpp:88-127 | reading back format and descriptor objects gives the format and descriptor they describe |
| Memobj.CreateImage | src/cpp/memobj.cpp:82-159 | format and descriptor must be objects; the host check matches createBuffer's; as written the driver gets the fields as the inverted key test reads them, which is 0 for every number |
| Memobj.CreateImageDropsFields | src/cpp/memobj.cpp:82-159 | as written, createImage hands the driver an all-zero format and descriptor for every image the caller describes |
| Memobj.GetSupportedImageFormats | src/cpp/memobj.cpp:194-230 | a non-object context throws the argument-0 type error; a failing count or list query throws its status; otherwise one object per format, which the corrected reader `Memobj.ReadFormat` reads back as that format |
| Memobj.GetMemObjectInfo | src/cpp/memobj.cpp:238-331 | a non-object memory object throws the argument-0 type error; type, flags, size, offset and the counts come back as the driver's number; the context or associated buffer is retained once, returned exactly when the driver knows it, and then wraps the driver's pointer; HOST_PTR is wrapped without a retain; a failing query throws its status; unlisted names throw INVALID_VALUE |
| Memobj.GetImageInfo | src/cpp/memobj.cpp:339-406 | a non-object image throws the argument-0 type error; IMAGE_FORMAT comes back as a format object of the driver's order and type; the sizes and counts as the driver's number; the buffer is retained once, returned exactly when the driver knows it, and then wraps the driver's pointer; a failing query throws its status; unlisted names throw INVALID_VALUE |
| Memobj.ImageFormatInfoRoundTrip | src/cpp/memobj.cpp:345-358 | the format getImageInfo returns is read back by the corrected reader `Memobj.ReadFormat` as the same format |
| Event.WaitForEvents | src/cpp/event.cpp:12-21 | the wait list's length and contents pass through unchanged |
| Event.WaitForWrappedEvents | src/cpp/event.cpp:12-21 | waiting on events the binding handed out passes the driver's own event pointers, in order |
| Event.GetEventInfo | src/cpp/event.cpp:29-81 | a non-object event throws the argument-0 type error; command type, execution status and reference count come back as the driver's number; the queue or context is retained, returned exactly when the driver knows it, and then wraps the driver's pointer; a failing query throws its status; unlisted names throw INVALID_VALUE |
| Event.CreateUserEvent | src/cpp/event.cpp:86-94 | the new event is returned exactly on driver success |
| Event.UserEventUnwraps | src/cpp/event.cpp:86-94 | the user event handed out reads back through `as<cl_event>` as the driver's event |
| Event.AsClInt | src/cpp/event.cpp:122-124 | the cl_int the driver receives is congruent modulo 2^32 to the uint32 read |
| Event.SetUserEventStatus | src/cpp/event.cpp:120-127 | the status is read as a uint32 and handed over as a cl_int |
| Event.UserEventStatusPassesThrough | src/cpp/event.cpp:120-127 | every cl_int status, the negative error statuses included, reaches the driver unchanged |
| Event.GetEventProfilingInfo | src/cpp/event.cpp:136-172 | a non-object event throws the argument-0 type error; the four PROFILING_COMMAND_* names come back as [hi, lo] of the driver's value; a failing query throws its status; any other name throws INVALID_VALUE |
| Event.ProfilingTimestampRoundTrip | src/cpp/event.cpp:145-167 | a profiling timestamp comes back as the [hi, lo] pair of the driver's value, and that pair joins back to it |

## Left out

- The OpenCL driver: every `cl*` call is a foreign function. Its statuses and returned pointers are parameters. Its reference counts follow section 5 of the OpenCL 1.2 specification. Root devices are uncounted, as section 4.3 has them.
- Cross-thread callback delivery (`NotifyHelper`, `EventWorker`, `setEventCallback` at src/cpp/event.cpp:175-262): concurrency on N-API thread-safe functions. Build, compile and link model only whether the callback path is taken.
- `createSubDevices` (src/cpp/device.cpp:394-432): it ignores its property argument for the count query and passes the rest to the driver; it has no rule of its own beyond wrapping without a retain.
- `createCommandQueue`, `flush`, `finish`, `enqueueTask`, the buffer read/write/copy and rect calls, the image copy calls, `enqueueUnmapMemObject`, `enqueueBarrierWithWaitList`, the GL calls and `enqueueFillImage` of src/cpp/queue.cpp: each is `Queue.Enqueue` with different driver arguments, so they have no separate member. `enqueueNativeKernel` only throws.
- `unloadPlatformCompiler` and the thin pass-throughs of src/cpp/sampler.cpp and src/cpp/platform.cpp.
- src/cpp/commandqueue.cpp, an older copy of queue.cpp; src/cpp/bindings.cpp, the export table. That table does not register `createContextFromType`, `enqueueMarker` or `enqueueBarrier`, though index.d.ts declares them. `Context.CreateContextFromType` models the translator as written.
- wrapper.hpp is not part of this model. Its two-argument `fromJsArray(array, &out)`, used by src/cpp/program.cpp (which includes wrapper.hpp), is taken to fill `out` with the pointers of the array's wrappers in order, like the one-argument `fromJsArray` of src/cpp/types.hpp:48-55. src/cpp/context.cpp includes only types.hpp, so its two-argument call at src/cpp/context.cpp:35 matches neither header shown here; the model gives it the same meaning.
- The argument helpers of addon-tools (`REQ_*_ARG`, `USE_*_ARG`, `IS_ARG_EMPTY`) are not part of this model. Their messages are taken to name the expected kind ("Object", "String", "Array", "Function"). Numeric arguments are read as integers, and a plain number is assumed for the `REQ_OFFS_ARG` and `REQ_UINT32_ARG` parameters (`param_name`, sizes, flags).
- Kernel.ConvertAsWritten and Kernel.Convert: the integer converters cast the JS number to the element type (`static_cast<TYPE>` at src/cpp/kernel.cpp:92, `(TYPE)` at src/cpp/kernel.cpp:150). A number outside the element type's range is undefined behaviour in that cast; the model's payload keeps the JS integer, and its byte size is the element type's, so it states nothing about the bytes such a value becomes.
- Queue.Enqueue and Event.WaitForEvents: the driver receives `&cl_events.front()` even when the wait list is empty (src/cpp/queue.cpp:161 and the other enqueue calls, src/cpp/event.cpp:17), which is undefined behaviour on an empty vector. The model hands the driver the empty list, as the guarded form `cl_devices.size() ? &cl_devices.front() : nullptr` at src/cpp/program.cpp:154 does. Likewise the requires `WaitListShape`, `Program.ListShape`, the element requires of `Queue.EnqueueMigrateMemObjects` and `Memobj.DescShape` exclude non-wrapper objects where the source unwraps them, which is undefined behaviour there.
- Floating point: the converters' double-to-float and double-to-half casts, the bytes of a fill pattern, and `RET_NUM` of values above 2^53. Numbers are integers throughout.
- Memory management (`new`/`delete`/`free`) and the `size_t` wrap-around of `MapImageSize` and of the pitch products.
- Queries that size their answer first (`getDeviceInfo` MAX_WORK_ITEM_SIZES, program binaries, build log and options, kernel argument names) take the first failing status as one parameter (`dimStatus`, `sizeStatus`).
- Device.GetDeviceInfo: the dimension count of MAX_WORK_ITEM_SIZES is asked for with a buffer size of `sizeof(size_t)` into a `cl_uint` (src/cpp/device.cpp:147). That size need only be at least the size of the answer, and a driver writes `sizeof(cl_uint)` bytes, so the oversized buffer size is harmless; the model takes the count the driver reports.
- Memobj.CreateSubBuffer: src/cpp/memobj.cpp:45-73 reads the type at argument 2 and an {origin, size} object at argument 3. The declaration at index.d.ts:617-630 is `(mem, flags, origin, size)`. The model follows the code.
- Queue.FillPattern: src/cpp/queue.cpp:329-332 passes a numeric pattern as an 8-byte double, while index.d.ts:1276-1279 documents it as a `uint32_t`. The model follows the code and states the 8 bytes; which byte pattern a double gives is not modelled.
- Device.DeviceRefCall: follows the code, which throws INVALID_DEVICE for a root device. Section 4.3 of the OpenCL 1.2 specification makes that retain or release a successful no-op (`Device.RootDeviceGuardThrows`).
- Memobj.GetImageInfo: IMAGE_FORMAT is built as an array object carrying the two named keys; the model gives it as an object with those keys only.
- Queue.EnqueueImageTransfer and Queue.EnqueueMapImage: an origin or region of more than three entries writes past the three-slot arrays, which is undefined behaviour; the model requires at most three (`Queue.PadAsWritten` shows the overrun).
- Context.GetContextInfo: the entries past the ones the driver writes are uninitialised memory; the model takes them as a parameter.
- Context.ParseFrom: a CONTEXT_PLATFORM id must be followed by a platform wrapper (`Context.Readable`); past the end of the array the source unwraps undefined.
- Status.ThrowErr: the JS error `JS_THROW` raises holds only the message text. `Failure.Code()` is the status the model records for the failure, not a field a JS caller can read; a caller gets the status back only by parsing the message (`Status.ThrownMessageNamesCode`).
- Program.BinariesRoundTrip: the ArrayBuffers getProgramInfo returns for BINARIES are created over the driver's copies, which src/cpp/program.cpp:443-446 deletes before returning, so handing them back reads freed memory. The model treats those pointers as still valid; it states only that the same pointers and lengths reach the driver.
- Program.CreateProgramWithBinary: test/program.test.js:94-131 calls it as `(context, devices, sizes, binaries)` and expects INVALID_VALUE when the sizes and binaries differ in length. src/cpp/program.cpp:22-60 reads the binaries at argument 2, takes each length from its buffer and has no such check. The model follows the code.
- Program.CompileProgram and Program.CreateProgramWithBuiltInKernels: each name's `c_str()` pointer is taken while `strNames` is still growing (src/cpp/program.cpp:79-80 and 201-202). A reallocation moves strings short enough to be stored inline, so earlier pointers can dangle. The model passes the names themselves, as they would be read without that reallocation.

## Findings

| source | as written | input that shows it | evidently intended | confidence | as-written member | corrected member |
|---|---|---|---|---|---|---|
| src/cpp/memobj.cpp:89-121 | each format and descriptor field is 0 when the object HAS the key, and read from the object when it does not (where it reads undefined, i.e. 0) | `createImage(ctx, flags, {channel_order: CL_RGBA, channel_data_type: CL_UNORM_INT8}, {type: CL_MEM_OBJECT_IMAGE2D, width: 64, height: 64})` passes order 0, type 0 and a 0×0 image | read the property when present, 0 when absent | high, not executed | Memobj.ImageFieldsAsWrittenAreZero | Memobj.ImageFieldsRoundTrip |
| src/cpp/queue.cpp:181-196 | slots 0 to max(len, 2) − 1 of the three-slot origin and region are overwritten | region `[64]` becomes `[64, 0, 1]` (a zero height); a four-entry origin writes past the array | given entries replace the defaults {0,0,0} and {1,1,1}, at most three | medium, not executed | Queue.PadAsWrittenCounterexamples | Queue.PadKeepsGivenEntries |
| src/cpp/context.cpp:169-184 | the byte size the driver reports is used as the entry count | a context made with `[CL_CONTEXT_PLATFORM, p]` reports 24 entries instead of 3 | byte size / sizeof(cl_context_properties) entries | high, not executed | Context.PropertiesAsWrittenOvercounts | Context.Properties |
| src/cpp/kernel.cpp:137-159 | a vector of width N is passed with size N × sizeof(element) | `setKernelArg(k, 0, "float3", [1, 2, 3])` passes 12 bytes for a 16-byte `float3` | the size of the OpenCL C type, where a 3-vector occupies 4 elements (section 6.1.5 of the OpenCL 1.2 specification) | medium, not executed | Kernel.SetKernelArgFloat3AsWritten | Kernel.ConvertedSizeIsTypeSize |
| src/cpp/program.cpp:89-94 | only `names.front()` is passed as kernel_names | `createProgramWithBuiltInKernels(ctx, devs, ["a", "b"])` builds a program with kernel "a" only | the ';'-separated list of all names (section 5.6.1 of the OpenCL 1.2 specification) | medium, not executed | Program.KernelNamesAsWrittenDropsNames | Program.SplitJoinNames |
