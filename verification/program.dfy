/**
 * The program translators of src/cpp/program.cpp, which wrap their results
 * with the wrapper.cpp variant: the creation entry points and their list
 * checks, build, compile and link with their optional callback, and the
 * getProgramInfo and getProgramBuildInfo tables.
 */
module Program {
  import opened Native
  import opened Registry
  import opened Js
  import opened Status
  import opened Wrapper
  import opened Results
  import opened ClConst
  import opened Info

  /** A new program as the translators hand it back. */
  function NewProgram(p: Ptr): Value {
    Wrapped(FromRaw(Current, ProgramId, p))
  }

  /** REQ_STR_ARG: the argument must be a string. */
  function ReqStr(i: nat, a: Value): (r: Call<string>)
    ensures r.Returned? <==> a.Str?
    ensures r.Returned? ==> r.value == a.s
    ensures r.Threw? ==> r.failure == ArgType(i, "String")
  {
    if a.Str? then Returned(a.s) else Threw(ArgType(i, "String"))
  }

  /** The strings of an array, or None when some element is not a string. */
  function StringsOf(items: seq<Value>): (r: Option<seq<string>>)
    ensures r.Some? <==> forall k :: 0 <= k < |items| ==> items[k].Str?
    ensures r.Some? ==> |r.value| == |items| && forall k :: 0 <= k < |items| ==> r.value[k] == items[k].s
    decreases |items|
  {
    if items == [] then Some([])
    else
      var front := StringsOf(items[..|items| - 1]);
      var last := items[|items| - 1];
      if front.None? || !last.Str? then None
      else Some(front.value + [last.s])
  }

  /** createProgramWithSource: one source string, its length, one driver call. */
  function CreateProgramWithSource(ctxArg: Value, srcArg: Value, status: int, prg: Ptr): (r: (Call<Value>, Option<string>))
    requires IsObject(ctxArg) ==> ctxArg.Wrapped?
    ensures !IsObject(ctxArg) ==> r == (Threw(ArgType(0, "Object")), None)
    ensures IsObject(ctxArg) && !srcArg.Str? ==> r == (Threw(ArgType(1, "String")), None)
    ensures r.1.Some? <==> IsObject(ctxArg) && srcArg.Str?
    ensures r.1.Some? ==> r.1.value == srcArg.s
    ensures r.0.Returned? <==> r.1.Some? && status == CL_SUCCESS
    ensures r.0.Returned? ==> r.0.value == NewProgram(prg)
  {
    var ctx := ReqClArg(0, ctxArg);
    if ctx.Threw? then (Threw(ctx.failure), None)
    else
      var src := ReqStr(1, srcArg);
      if src.Threw? then (Threw(src.failure), None)
      else (CheckErr(status, Returned(NewProgram(prg))), Some(src.value))
  }

  /** What createProgramWithBinary hands the driver: devices, then one length and one data pointer per binary. */
  datatype BinaryCall = BinaryCall(devices: seq<Ptr>, lengths: seq<nat>, binaries: seq<Ptr>)

  /**
   * createProgramWithBinary: arguments 1 and 2 must be arrays, an empty
   * binaries array throws INVALID_VALUE before the devices are read, and
   * each binary gives its host pointer and byte length (null and 0 for
   * anything that does not hold bytes).
   */
  function CreateProgramWithBinary(ctxArg: Value, devicesArg: Value, binariesArg: Value, status: int, prg: Ptr): (r: (Call<Value>, Option<BinaryCall>))
    requires IsObject(ctxArg) ==> ctxArg.Wrapped?
    requires devicesArg.Array? ==> AllWrapped(devicesArg.items)
    ensures !IsObject(ctxArg) ==> r == (Threw(ArgType(0, "Object")), None)
    ensures IsObject(ctxArg) && !devicesArg.Array? ==> r == (Threw(ArgType(1, "Array")), None)
    ensures IsObject(ctxArg) && devicesArg.Array? && !binariesArg.Array? ==> r == (Threw(ArgType(2, "Array")), None)
    ensures IsObject(ctxArg) && devicesArg.Array? && binariesArg.Array? && binariesArg.items == [] ==>
      r == (ThrowErr(CL_INVALID_VALUE), None)
    ensures r.1.Some? <==> IsObject(ctxArg) && devicesArg.Array? && binariesArg.Array? && binariesArg.items != []
    ensures r.1.Some? ==>
      && r.1.value.devices == FromJsArray(devicesArg.items)
      && |r.1.value.lengths| == |binariesArg.items| == |r.1.value.binaries|
      && (forall k :: 0 <= k < |binariesArg.items| ==>
            && r.1.value.binaries[k] == GetPtrAndLen(binariesArg.items[k], true).0
            && r.1.value.lengths[k] == GetPtrAndLen(binariesArg.items[k], true).1.value)
    ensures r.0.Returned? <==> r.1.Some? && status == CL_SUCCESS
    ensures r.0.Returned? ==> r.0.value == NewProgram(prg)
  {
    var ctx := ReqClArg(0, ctxArg);
    if ctx.Threw? then (Threw(ctx.failure), None)
    else if !devicesArg.Array? then (Threw(ArgType(1, "Array")), None)
    else if !binariesArg.Array? then (Threw(ArgType(2, "Array")), None)
    else if binariesArg.items == [] then (ThrowErr(CL_INVALID_VALUE), None)
    else
      var bins := binariesArg.items;
      var lengths := seq(|bins|, k requires 0 <= k < |bins| => GetPtrAndLen(bins[k], true).1.value);
      var ptrs := seq(|bins|, k requires 0 <= k < |bins| => GetPtrAndLen(bins[k], true).0);
      (CheckErr(status, Returned(NewProgram(prg))), Some(BinaryCall(FromJsArray(devicesArg.items), lengths, ptrs)))
  }

  // Built-in kernel names.

  /** Names joined with ';', the list format section 5.6.1 of the OpenCL 1.2 specification gives kernel_names. */
  function JoinNames(names: seq<string>): (s: string)
    requires |names| > 0
    decreases |names|
  {
    if |names| == 1 then names[0] else names[0] + ";" + JoinNames(names[1..])
  }

  /** How the driver reads a ';'-separated list back into names. */
  function SplitNames(s: string): (names: seq<string>)
    ensures |names| > 0
    decreases |s|
  {
    if s == [] then [""]
    else
      var rest := SplitNames(s[1..]);
      if s[0] == ';' then [""] + rest else [[s[0]] + rest[0]] + rest[1..]
  }

  predicate PlainName(n: string) {
    forall k :: 0 <= k < |n| ==> n[k] != ';'
  }

  lemma {:induction false} SplitPlain(n: string, t: string)
    requires PlainName(n)
    ensures SplitNames(n) == [n]
    ensures SplitNames(n + ";" + t) == [n] + SplitNames(t)
    decreases |n|
  {
    if n == [] {
      assert ([] + ";" + t)[1..] == t;
    } else {
      SplitPlain(n[1..], t);
      assert (n + ";" + t)[1..] == n[1..] + ";" + t;
      assert [n[0]] + n[1..] == n;
    }
  }

  /** The joined list names every given name, in order, when no name contains ';'. */
  lemma {:induction false} SplitJoinNames(names: seq<string>)
    requires |names| > 0 && forall k :: 0 <= k < |names| ==> PlainName(names[k])
    ensures SplitNames(JoinNames(names)) == names
    decreases |names|
  {
    SplitPlain(names[0], if |names| == 1 then "" else JoinNames(names[1..]));
    if |names| > 1 {
      SplitJoinNames(names[1..]);
    }
  }

  /** The kernel_names argument as written: only the first name. */
  function KernelNamesAsWritten(names: seq<string>): (s: string)
    requires |names| > 0
  {
    names[0]
  }

  /** The kernel_names argument every name of the array reaches: the ';'-joined list. */
  function KernelNames(names: seq<string>): (s: string)
    requires |names| > 0
    ensures (forall k :: 0 <= k < |names| ==> PlainName(names[k])) ==> SplitNames(s) == names
  {
    if forall k :: 0 <= k < |names| ==> PlainName(names[k]) then
      SplitJoinNames(names);
      JoinNames(names)
    else
      JoinNames(names)
  }

  /** As written, every name after the first is dropped: ["a", "b"] reaches the driver as "a". */
  lemma KernelNamesAsWrittenDropsNames(names: seq<string>)
    requires |names| >= 2 && forall k :: 0 <= k < |names| ==> PlainName(names[k])
    ensures SplitNames(KernelNamesAsWritten(names)) == [names[0]] != names
    ensures SplitNames(KernelNames(names)) == names
  {
    SplitPlain(names[0], "");
  }

  /**
   * createProgramWithBuiltInKernels: arguments 1 and 2 must be arrays; an
   * empty names array or any element that is not a string throws
   * INVALID_VALUE before the devices are read; the driver then gets the
   * devices and, as written, the first name alone (KernelNames is the
   * list every name was meant to reach).
   */
  function CreateProgramWithBuiltInKernels(ctxArg: Value, devicesArg: Value, namesArg: Value, status: int, prg: Ptr): (r: (Call<Value>, Option<(seq<Ptr>, string)>))
    requires IsObject(ctxArg) ==> ctxArg.Wrapped?
    requires devicesArg.Array? ==> AllWrapped(devicesArg.items)
    ensures !IsObject(ctxArg) ==> r == (Threw(ArgType(0, "Object")), None)
    ensures IsObject(ctxArg) && !devicesArg.Array? ==> r == (Threw(ArgType(1, "Array")), None)
    ensures IsObject(ctxArg) && devicesArg.Array? && !namesArg.Array? ==> r == (Threw(ArgType(2, "Array")), None)
    ensures (IsObject(ctxArg) && devicesArg.Array? && namesArg.Array?
             && (namesArg.items == [] || exists k :: 0 <= k < |namesArg.items| && !namesArg.items[k].Str?)) ==>
      r == (ThrowErr(CL_INVALID_VALUE), None)
    ensures r.1.Some? ==>
      && namesArg.items != []
      && r.1.value.0 == FromJsArray(devicesArg.items)
      && r.1.value.1 == KernelNamesAsWritten(StringsOf(namesArg.items).value)
      && r.1.value.1 == namesArg.items[0].s
      && (PlainName(namesArg.items[0].s) ==> SplitNames(r.1.value.1) == [namesArg.items[0].s])
    ensures r.0.Returned? <==> r.1.Some? && status == CL_SUCCESS
    ensures r.0.Returned? ==> r.0.value == NewProgram(prg)
  {
    var ctx := ReqClArg(0, ctxArg);
    if ctx.Threw? then (Threw(ctx.failure), None)
    else if !devicesArg.Array? then (Threw(ArgType(1, "Array")), None)
    else if !namesArg.Array? then (Threw(ArgType(2, "Array")), None)
    else if namesArg.items == [] then (ThrowErr(CL_INVALID_VALUE), None)
    else
      var names := StringsOf(namesArg.items);
      if names.None? then (ThrowErr(CL_INVALID_VALUE), None)
      else
        var call := (CheckErr(status, Returned(NewProgram(prg))), Some((FromJsArray(devicesArg.items), KernelNamesAsWritten(names.value))));
        if PlainName(names.value[0]) then SplitPlain(names.value[0], ""); call else call
  }

  /** The JS array of kernel names a caller passes. */
  function NameArray(names: seq<string>): (a: Value)
    ensures a.Array? && |a.items| == |names|
    ensures forall k :: 0 <= k < |names| ==> a.items[k] == Str(names[k])
  {
    Array(seq(|names|, k requires 0 <= k < |names| => Str(names[k])))
  }

  /**
   * Device wrappers reach clCreateProgramWithBuiltInKernels as their
   * pointers, and a single plain name reaches it as that name, which the
   * driver splits back into exactly that name.
   */
  lemma BuiltInKernelsSingleName(ctx: Handle, ds: seq<Ptr>, name: string, prg: Ptr)
    requires PlainName(name)
    ensures var r := CreateProgramWithBuiltInKernels(Wrapped(ctx), Array(WrapAll(Current, DeviceId, ds)), NameArray([name]), CL_SUCCESS, prg);
      && r.0 == Returned(NewProgram(prg)) && r.1 == Some((ds, name))
      && SplitNames(r.1.value.1) == [name]
  {
    FromJsArrayWrapAll(Current, DeviceId, ds);
    assert StringsOf(NameArray([name]).items).value == [name];
  }

  // build, compile and link.

  /** An optional options string: absent or empty both reach the driver as null. */
  function OptionsArg(i: nat, a: Value): (r: Call<Option<string>>)
    ensures IsEmpty(a) ==> r == Returned(None)
    ensures !IsEmpty(a) && !a.Str? ==> r == Threw(ArgType(i, "String"))
    ensures a.Str? ==> r == Returned(if a.s == "" then None else Some(a.s))
  {
    if IsEmpty(a) then Returned(None)
    else if !a.Str? then Threw(ArgType(i, "String"))
    else Returned(if a.s == "" then None else Some(a.s))
  }

  /** An optional callback: whether the notifying path is taken. */
  function CallbackArg(i: nat, a: Value): (r: Call<bool>)
    ensures IsEmpty(a) ==> r == Returned(false)
    ensures a.Function? ==> r == Returned(true)
    ensures !IsEmpty(a) && !a.Function? ==> r == Threw(ArgType(i, "Function"))
  {
    if IsEmpty(a) then Returned(false)
    else if a.Function? then Returned(true)
    else Threw(ArgType(i, "Function"))
  }

  /** An optional array of wrappers, read like a wait list: empty when absent. */
  predicate ListShape(a: Value) {
    a.Array? ==> AllWrapped(a.items)
  }

  /** One build, compile or link request as the driver receives it. */
  datatype BuildCall = BuildCall(devices: seq<Ptr>, options: Option<string>, inputs: seq<Ptr>, headerNames: seq<string>, notify: bool)

  /** buildProgram: devices (1), options (2), callback (3). */
  function BuildProgram(progArg: Value, devicesArg: Value, optionsArg: Value, callbackArg: Value, status: int): (r: (Call<int>, Option<BuildCall>))
    requires IsObject(progArg) ==> progArg.Wrapped?
    requires ListShape(devicesArg)
    ensures r.1.Some? <==>
      && IsObject(progArg) && GetWaitList(1, devicesArg).Returned?
      && OptionsArg(2, optionsArg).Returned? && CallbackArg(3, callbackArg).Returned?
    ensures r.1.Some? ==>
      && r.1.value.devices == GetWaitList(1, devicesArg).value
      && r.1.value.options == OptionsArg(2, optionsArg).value
      && r.1.value.inputs == [] && r.1.value.headerNames == []
      && (r.1.value.notify <==> !IsEmpty(callbackArg))
    ensures r.0.Returned? <==> r.1.Some? && status == CL_SUCCESS
    ensures r.0.Returned? ==> r.0.value == CL_SUCCESS
  {
    var prog := ReqClArg(0, progArg);
    if prog.Threw? then (Threw(prog.failure), None)
    else
      var devices := GetWaitList(1, devicesArg);
      if devices.Threw? then (Threw(devices.failure), None)
      else
        var options := OptionsArg(2, optionsArg);
        if options.Threw? then (Threw(options.failure), None)
        else
          var notify := CallbackArg(3, callbackArg);
          if notify.Threw? then (Threw(notify.failure), None)
          else (CheckErr(status, Returned(CL_SUCCESS)), Some(BuildCall(devices.value, options.value, [], [], notify.value)))
  }

  /**
   * compileProgram: devices (1), options (2), header programs (3), header
   * names (4, strings only), then the two header lists must be equally
   * long, then the callback (5).
   */
  function CompileProgram(progArg: Value, devicesArg: Value, optionsArg: Value, headersArg: Value, namesArg: Value, callbackArg: Value, status: int): (r: (Call<int>, Option<BuildCall>))
    requires IsObject(progArg) ==> progArg.Wrapped?
    requires ListShape(devicesArg) && ListShape(headersArg)
    ensures r.1.Some? ==>
      && GetWaitList(1, devicesArg).Returned? && OptionsArg(2, optionsArg).Returned? && GetWaitList(3, headersArg).Returned?
      && r.1.value.devices == GetWaitList(1, devicesArg).value
      && r.1.value.options == OptionsArg(2, optionsArg).value
      && r.1.value.inputs == GetWaitList(3, headersArg).value
      && |r.1.value.inputs| == |r.1.value.headerNames|
      && (namesArg.Array? ==> StringsOf(namesArg.items).Some? && r.1.value.headerNames == StringsOf(namesArg.items).value)
      && (IsEmpty(namesArg) ==> r.1.value.headerNames == [])
      && (r.1.value.notify <==> !IsEmpty(callbackArg))
    ensures (IsObject(progArg) && GetWaitList(1, devicesArg).Returned? && OptionsArg(2, optionsArg).Returned?
             && GetWaitList(3, headersArg).Returned? && namesArg.Array? && StringsOf(namesArg.items).Some?
             && |GetWaitList(3, headersArg).value| != |namesArg.items|) ==>
      r == (ThrowErr(CL_INVALID_VALUE), None)
    ensures (IsObject(progArg) && GetWaitList(1, devicesArg).Returned? && OptionsArg(2, optionsArg).Returned?
             && GetWaitList(3, headersArg).Returned? && namesArg.Array? && StringsOf(namesArg.items).None?) ==>
      r == (ThrowErr(CL_INVALID_VALUE), None)
    ensures r.0.Returned? <==> r.1.Some? && status == CL_SUCCESS
    ensures r.0.Returned? ==> r.0.value == CL_SUCCESS
  {
    var prog := ReqClArg(0, progArg);
    if prog.Threw? then (Threw(prog.failure), None)
    else
      var devices := GetWaitList(1, devicesArg);
      if devices.Threw? then (Threw(devices.failure), None)
      else
        var options := OptionsArg(2, optionsArg);
        if options.Threw? then (Threw(options.failure), None)
        else
          var headers := GetWaitList(3, headersArg);
          if headers.Threw? then (Threw(headers.failure), None)
          else if !IsEmpty(namesArg) && !namesArg.Array? then (Threw(ArgType(4, "Array")), None)
          else
            var names := if IsEmpty(namesArg) then Some([]) else StringsOf(namesArg.items);
            if names.None? then (ThrowErr(CL_INVALID_VALUE), None)
            else if |headers.value| != |names.value| then (ThrowErr(CL_INVALID_VALUE), None)
            else
              var notify := CallbackArg(5, callbackArg);
              if notify.Threw? then (Threw(notify.failure), None)
              else (CheckErr(status, Returned(CL_SUCCESS)), Some(BuildCall(devices.value, options.value, headers.value, names.value, notify.value)))
  }

  /** linkProgram: devices (1), options (2), input programs (3), callback (4); the linked program is wrapped. */
  function LinkProgram(ctxArg: Value, devicesArg: Value, optionsArg: Value, programsArg: Value, callbackArg: Value, status: int, prg: Ptr): (r: (Call<Value>, Option<BuildCall>))
    requires IsObject(ctxArg) ==> ctxArg.Wrapped?
    requires ListShape(devicesArg) && ListShape(programsArg)
    ensures r.1.Some? <==>
      && IsObject(ctxArg) && GetWaitList(1, devicesArg).Returned? && OptionsArg(2, optionsArg).Returned?
      && GetWaitList(3, programsArg).Returned? && CallbackArg(4, callbackArg).Returned?
    ensures r.1.Some? ==>
      && r.1.value.devices == GetWaitList(1, devicesArg).value
      && r.1.value.options == OptionsArg(2, optionsArg).value
      && r.1.value.inputs == GetWaitList(3, programsArg).value
      && r.1.value.headerNames == []
      && (r.1.value.notify <==> !IsEmpty(callbackArg))
    ensures r.0.Returned? <==> r.1.Some? && status == CL_SUCCESS
    ensures r.0.Returned? ==> r.0.value == NewProgram(prg)
  {
    var ctx := ReqClArg(0, ctxArg);
    if ctx.Threw? then (Threw(ctx.failure), None)
    else
      var devices := GetWaitList(1, devicesArg);
      if devices.Threw? then (Threw(devices.failure), None)
      else
        var options := OptionsArg(2, optionsArg);
        if options.Threw? then (Threw(options.failure), None)
        else
          var programs := GetWaitList(3, programsArg);
          if programs.Threw? then (Threw(programs.failure), None)
          else
            var notify := CallbackArg(4, callbackArg);
            if notify.Threw? then (Threw(notify.failure), None)
            else (CheckErr(status, Returned(NewProgram(prg))), Some(BuildCall(devices.value, options.value, programs.value, [], notify.value)))
  }

  /**
   * buildProgram and linkProgram read their shared arguments the same way:
   * whenever both calls go through, the driver gets the same devices, the
   * same options and the same choice of callback.
   */
  lemma BuildAndLinkAgree(progArg: Value, ctxArg: Value, devicesArg: Value, optionsArg: Value, programsArg: Value, callbackArg: Value, status: int, prg: Ptr)
    requires IsObject(progArg) ==> progArg.Wrapped?
    requires IsObject(ctxArg) ==> ctxArg.Wrapped?
    requires ListShape(devicesArg) && ListShape(programsArg)
    ensures var b := BuildProgram(progArg, devicesArg, optionsArg, callbackArg, status);
      var l := LinkProgram(ctxArg, devicesArg, optionsArg, programsArg, callbackArg, status, prg);
      b.1.Some? && l.1.Some? ==>
        && b.1.value.devices == l.1.value.devices
        && b.1.value.options == l.1.value.options
        && b.1.value.notify == l.1.value.notify
  {
  }

  /**
   * Header programs the binding handed out, with their include names, reach
   * clCompileProgram as the driver's program pointers and the same names in
   * the same order, and are accepted exactly when the two lists are equally
   * long.
   */
  lemma CompileHeadersRoundTrip(prog: Handle, ds: seq<Ptr>, hs: seq<Ptr>, names: seq<string>, status: int)
    ensures ListShape(Array(WrapAll(Current, DeviceId, ds))) && ListShape(Array(WrapAll(Current, ProgramId, hs)))
    ensures var r := CompileProgram(Wrapped(prog), Array(WrapAll(Current, DeviceId, ds)), Undefined,
        Array(WrapAll(Current, ProgramId, hs)), NameArray(names), Undefined, status);
      && (r.1.Some? <==> |hs| == |names|)
      && (|hs| != |names| ==> r.0 == ThrowErr(CL_INVALID_VALUE))
      && (r.1.Some? ==> r.1.value == BuildCall(ds, None, hs, names, false))
  {
    FromJsArrayWrapAll(Current, DeviceId, ds);
    FromJsArrayWrapAll(Current, ProgramId, hs);
    assert StringsOf(NameArray(names).items).value == names;
  }

  /** The wrapped program a creation entry point hands out reads back, through as<cl_program>, as the driver's program. */
  lemma NewProgramUnwraps(prg: Ptr)
    ensures NewProgram(prg).Wrapped? && As(NewProgram(prg).h) == prg
  {
    WrapUnwrapRoundTrip(Current, ProgramId, prg);
  }

  // getProgramInfo and getProgramBuildInfo.

  /** The answer shape of each getProgramInfo name. */
  function ProgramInfoShape(param: nat): Option<Shape> {
    if param == CL_PROGRAM_REFERENCE_COUNT || param == CL_PROGRAM_NUM_DEVICES || param == CL_PROGRAM_NUM_KERNELS then Some(NumberOf)
    else if param == CL_PROGRAM_CONTEXT then Some(HandleOf(ContextId, Some(Context), false))
    else if param == CL_PROGRAM_DEVICES then Some(DevicesOf)
    else if param == CL_PROGRAM_BINARY_SIZES then Some(NumbersOf)
    else if param == CL_PROGRAM_BINARIES then Some(BlobsOf)
    else if param == CL_PROGRAM_KERNEL_NAMES || param == CL_PROGRAM_SOURCE then Some(TextOf)
    else None
  }

  /** The names whose value is fetched after a first query for its size or count. */
  predicate SizedFirst(param: nat) {
    param == CL_PROGRAM_DEVICES || param == CL_PROGRAM_BINARY_SIZES || param == CL_PROGRAM_BINARIES
    || param == CL_PROGRAM_KERNEL_NAMES || param == CL_PROGRAM_SOURCE
  }

  /**
   * getProgramInfo: the program (argument 0), then the switch. `sizeStatus`
   * is the first failing status among the queries that size the answer
   * (the device count for the binaries), CL_SUCCESS when they all pass.
   */
  function GetProgramInfo(progArg: Value, param: nat, sizeStatus: int, status: int, answer: Answer, d: Driver): (r: (Call<Value>, Driver))
    requires IsObject(progArg) ==> progArg.Wrapped?
    requires ProgramInfoShape(param).Some? && status == CL_SUCCESS ==> Fits(ProgramInfoShape(param).value, answer)
    ensures !IsObject(progArg) ==> r == (Threw(ArgType(0, "Object")), d)
    ensures IsObject(progArg) && ProgramInfoShape(param).None? ==> r == (ThrowErr(CL_INVALID_VALUE), d)
    ensures IsObject(progArg) && SizedFirst(param) && sizeStatus != CL_SUCCESS ==> r == (ThrowErr(sizeStatus), d)
    ensures IsObject(progArg) && ProgramInfoShape(param).Some? && !(SizedFirst(param) && sizeStatus != CL_SUCCESS) && status != CL_SUCCESS ==>
      r == (ThrowErr(status), d)
    ensures IsObject(progArg) && ProgramInfoShape(param) == Some(NumberOf) && status == CL_SUCCESS ==>
      r == (Returned(Number(answer.n)), d)
    ensures IsObject(progArg) && ProgramInfoShape(param) == Some(TextOf) && sizeStatus == CL_SUCCESS && status == CL_SUCCESS ==>
      r == (Returned(Str(answer.s)), d)
    ensures IsObject(progArg) && param == CL_PROGRAM_BINARY_SIZES && sizeStatus == CL_SUCCESS && status == CL_SUCCESS ==>
      r == (Returned(NumbersValue(answer.ns)), d)
    ensures IsObject(progArg) && param == CL_PROGRAM_DEVICES && sizeStatus == CL_SUCCESS && status == CL_SUCCESS ==>
      && (r.0.Returned? <==> forall k :: 0 <= k < |answer.ps| ==> Known(d, Device, answer.ps[k]))
      && (r.0.Returned? ==>
            && r.0.value == HandlesValue(seq(|answer.ps|, k requires 0 <= k < |answer.ps| => FromRaw(Current, DeviceId, answer.ps[k])))
            && r.1.log == d.log + RetainCalls(Device, answer.ps))
    ensures IsObject(progArg) && param == CL_PROGRAM_CONTEXT && status == CL_SUCCESS ==>
      && r.1.log == d.log + [RetainCall(Context, answer.p)]
      && (r.0.Returned? <==> answer.p in d.counts)
      && (r.0.Returned? ==> r.0.value == Wrapped(FromRaw(Current, ContextId, answer.p)))
    ensures IsObject(progArg) && param == CL_PROGRAM_BINARIES && sizeStatus == CL_SUCCESS && status == CL_SUCCESS ==>
      r == (Returned(BlobsValue(answer.blobs)), d)
  {
    var prog := ReqClArg(0, progArg);
    if prog.Threw? then (Threw(prog.failure), d)
    else if SizedFirst(param) && sizeStatus != CL_SUCCESS then (ThrowErr(sizeStatus), d)
    else if param == CL_PROGRAM_DEVICES && status == CL_SUCCESS then
      DevicesAnswer(Current, answer.ps, d);
      var r := Query(Current, ProgramInfoShape(param), status, answer, d);
      assert r.0.Returned? ==> r.0.value == HandlesValue(seq(|answer.ps|, k requires 0 <= k < |answer.ps| => FromRaw(Current, DeviceId, answer.ps[k])));
      r
    else
      Query(Current, ProgramInfoShape(param), status, answer, d)
  }

  /** The answer shape of each getProgramBuildInfo name. */
  function BuildInfoShape(param: nat): Option<Shape> {
    if param == CL_PROGRAM_BUILD_STATUS || param == CL_PROGRAM_BINARY_TYPE then Some(NumberOf)
    else if param == CL_PROGRAM_BUILD_OPTIONS || param == CL_PROGRAM_BUILD_LOG then Some(TextOf)
    else None
  }

  /**
   * getProgramBuildInfo: the program (argument 0) and the device
   * (argument 1), then the switch; the options and the log are sized by a
   * first query (`sizeStatus`).
   */
  function GetProgramBuildInfo(progArg: Value, deviceArg: Value, param: nat, sizeStatus: int, status: int, answer: Answer): (r: Call<Value>)
    requires IsObject(progArg) ==> progArg.Wrapped?
    requires IsObject(deviceArg) ==> deviceArg.Wrapped?
    requires BuildInfoShape(param).Some? && status == CL_SUCCESS ==> Fits(BuildInfoShape(param).value, answer)
    ensures !IsObject(progArg) ==> r == Threw(ArgType(0, "Object"))
    ensures IsObject(progArg) && !IsObject(deviceArg) ==> r == Threw(ArgType(1, "Object"))
    ensures IsObject(progArg) && IsObject(deviceArg) ==>
      && (BuildInfoShape(param).None? ==> r == ThrowErr(CL_INVALID_VALUE))
      && (BuildInfoShape(param) == Some(TextOf) && sizeStatus != CL_SUCCESS ==> r == ThrowErr(sizeStatus))
      && (BuildInfoShape(param) == Some(NumberOf) && status != CL_SUCCESS ==> r == ThrowErr(status))
      && (BuildInfoShape(param) == Some(TextOf) && sizeStatus == CL_SUCCESS && status != CL_SUCCESS ==> r == ThrowErr(status))
      && (BuildInfoShape(param) == Some(NumberOf) && status == CL_SUCCESS ==> r == Returned(Number(answer.n)))
      && (BuildInfoShape(param) == Some(TextOf) && sizeStatus == CL_SUCCESS && status == CL_SUCCESS ==>
            r == Returned(Str(answer.s)))
  {
    var prog := ReqClArg(0, progArg);
    if prog.Threw? then Threw(prog.failure)
    else
      var device := ReqClArg(1, deviceArg);
      if device.Threw? then Threw(device.failure)
      else if BuildInfoShape(param) == Some(TextOf) && sizeStatus != CL_SUCCESS then ThrowErr(sizeStatus)
      else Query(Current, BuildInfoShape(param), status, answer, Driver(map[], [])).0
  }

  /**
   * The binaries getProgramInfo hands out, passed back to
   * createProgramWithBinary with the same devices, reach the driver as the
   * same data pointers and byte lengths, in device order.
   */
  lemma BinariesRoundTrip(prog: Handle, ctx: Handle, ds: seq<Ptr>, blobs: seq<(Ptr, nat)>, d: Driver, prg: Ptr)
    requires blobs != []
    ensures GetProgramInfo(Wrapped(prog), CL_PROGRAM_BINARIES, CL_SUCCESS, CL_SUCCESS, BlobsAnswer(blobs), d).0 == Returned(BlobsValue(blobs))
    ensures var r := CreateProgramWithBinary(Wrapped(ctx), Array(WrapAll(Current, DeviceId, ds)), BlobsValue(blobs), CL_SUCCESS, prg);
      && r.0 == Returned(NewProgram(prg)) && r.1.Some?
      && r.1.value.devices == ds
      && r.1.value.binaries == seq(|blobs|, k requires 0 <= k < |blobs| => blobs[k].0)
      && r.1.value.lengths == seq(|blobs|, k requires 0 <= k < |blobs| => blobs[k].1)
  {
    FromJsArrayWrapAll(Current, DeviceId, ds);
  }

  /** Options given to buildProgram are what getProgramBuildInfo reports back when the driver keeps them. */
  lemma BuildOptionsRoundTrip(progArg: Value, device: Handle, opts: string)
    requires progArg.Wrapped? && opts != ""
    ensures BuildProgram(progArg, Undefined, Str(opts), Undefined, CL_SUCCESS).1.value.options == Some(opts)
    ensures GetProgramBuildInfo(progArg, Wrapped(device), CL_PROGRAM_BUILD_OPTIONS, CL_SUCCESS, CL_SUCCESS, TextAnswer(opts)) == Returned(Str(opts))
  {
  }
}
