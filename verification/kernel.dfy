/**
 * The kernel translators of src/cpp/kernel.cpp: the table of primitive
 * argument converters, the dispatch of setKernelArg on the argument's
 * OpenCL type name, createKernel, createKernelsInProgram and the three
 * kernel info queries.
 */
module Kernel {
  import opened Native
  import opened Registry
  import opened Js
  import opened Status
  import opened Wrapper
  import opened Results
  import opened ClConst
  import opened Info
  import Split64

  /** The eleven scalar types of OpenCL C that have a converter. */
  datatype Base = Char | UChar | Short | UShort | Int | UInt | Long | ULong | Float | Double | Half

  function BaseName(b: Base): (s: string)
    ensures 3 <= |s| <= 6
  {
    match b
    case Char => "char"
    case UChar => "uchar"
    case Short => "short"
    case UShort => "ushort"
    case Int => "int"
    case UInt => "uint"
    case Long => "long"
    case ULong => "ulong"
    case Float => "float"
    case Double => "double"
    case Half => "half"
  }

  /** sizeof of the host type cl_<name>, as the OpenCL 1.2 headers define it. */
  function BaseSize(b: Base): nat {
    match b
    case Char => 1
    case UChar => 1
    case Short => 2
    case UShort => 2
    case Int => 4
    case UInt => 4
    case Long => 8
    case ULong => 8
    case Float => 4
    case Double => 8
    case Half => 2
  }

  /** The type named by a string, the inverse of BaseName. */
  function BaseNamed(s: string): (r: Option<Base>)
    ensures r.Some? ==> BaseName(r.value) == s
  {
    if s == "char" then Some(Char)
    else if s == "uchar" then Some(UChar)
    else if s == "short" then Some(Short)
    else if s == "ushort" then Some(UShort)
    else if s == "int" then Some(Int)
    else if s == "uint" then Some(UInt)
    else if s == "long" then Some(Long)
    else if s == "ulong" then Some(ULong)
    else if s == "float" then Some(Float)
    else if s == "double" then Some(Double)
    else if s == "half" then Some(Half)
    else None
  }

  lemma BaseNamedInverts(b: Base)
    ensures BaseNamed(BaseName(b)) == Some(b)
  {
  }

  /** The vector widths of OpenCL C. */
  predicate VectorWidth(n: nat) {
    n == 2 || n == 3 || n == 4 || n == 8 || n == 16
  }

  /** One entry of the converter table: a scalar, a vector of a scalar, or bool. */
  datatype Converter = Scalar(base: Base) | Vector(base: Base, width: nat) | BoolConv

  predicate ValidConverter(c: Converter) {
    c.Vector? ==> VectorWidth(c.width)
  }

  predicate IsDigit(c: char) {
    '0' <= c <= '9'
  }

  /** The decimal suffix of a vector type name. */
  function WidthText(n: nat): (s: string)
    requires VectorWidth(n)
    ensures s != [] && forall i :: 0 <= i < |s| ==> IsDigit(s[i])
  {
    if n == 2 then "2" else if n == 3 then "3" else if n == 4 then "4" else if n == 8 then "8" else "16"
  }

  /** The width a type-name suffix denotes: 1 for no suffix, none for a suffix that is not a width. */
  function WidthNamed(s: string): (r: Option<nat>)
    ensures r.Some? && r.value != 1 ==> VectorWidth(r.value) && WidthText(r.value) == s
    ensures r == Some(1) ==> s == []
  {
    if s == [] then Some(1)
    else if s == "2" then Some(2)
    else if s == "3" then Some(3)
    else if s == "4" then Some(4)
    else if s == "8" then Some(8)
    else if s == "16" then Some(16)
    else None
  }

  /** The key of a converter in the table: the scalar name, followed by the width for a vector. */
  function ConverterName(c: Converter): string
    requires ValidConverter(c)
  {
    match c
    case Scalar(b) => BaseName(b)
    case Vector(b, n) => BaseName(b) + WidthText(n)
    case BoolConv => "bool"
  }

  /** The position of the first digit of a string, or its length when it has none. */
  function FirstDigit(s: string): (k: nat)
    ensures k <= |s|
    ensures forall i :: 0 <= i < k ==> !IsDigit(s[i])
    ensures k < |s| ==> IsDigit(s[k])
  {
    if s == [] then 0 else if IsDigit(s[0]) then 0 else 1 + FirstDigit(s[1..])
  }

  /**
   * The converter table looked up by name (hasType, then the entry):
   * "bool", or a scalar name followed by nothing or by a vector width.
   */
  function ConverterFor(name: string): (r: Option<Converter>)
    ensures r.Some? ==> ValidConverter(r.value)
  {
    var k := FirstDigit(name);
    var b := BaseNamed(name[..k]);
    var w := WidthNamed(name[k..]);
    if b.Some? && w.Some? then
      if w.value == 1 then Some(Scalar(b.value)) else Some(Vector(b.value, w.value))
    else if name == "bool" then Some(BoolConv)
    else None
  }

  /** hasType: the name is a key of the converter table. */
  predicate HasType(name: string) {
    ConverterFor(name).Some?
  }

  /** A scalar name has no digit, so the first digit of a type name is where its width starts. */
  lemma FirstDigitOfTypeName(b: Base, suffix: string)
    requires suffix == [] || IsDigit(suffix[0])
    ensures FirstDigit(BaseName(b) + suffix) == |BaseName(b)|
  {
    var s := BaseName(b) + suffix;
    assert forall i :: 0 <= i < |BaseName(b)| ==> !IsDigit(BaseName(b)[i]);
    assert forall i :: 0 <= i < |BaseName(b)| ==> s[i] == BaseName(b)[i];
    assert |BaseName(b)| < |s| ==> s[|BaseName(b)|] == suffix[0];
  }

  /** Every entry of the table is found under its own name. */
  lemma {:induction false} ConverterForName(c: Converter)
    requires ValidConverter(c)
    ensures ConverterFor(ConverterName(c)) == Some(c)
  {
    if !c.BoolConv? {
      var suffix := if c.Scalar? then [] else WidthText(c.width);
      var name := BaseName(c.base) + suffix;
      assert ConverterName(c) == name;
      FirstDigitOfTypeName(c.base, suffix);
      var k := |BaseName(c.base)|;
      assert name[..k] == BaseName(c.base) && name[k..] == suffix;
      BaseNamedInverts(c.base);
    } else {
      assert FirstDigit("bool") == 4;
    }
  }

  /** A name is found in the table only under the name of its entry. */
  lemma {:induction false} ConverterForOnlyName(name: string)
    requires HasType(name)
    ensures ConverterName(ConverterFor(name).value) == name
  {
    var k := FirstDigit(name);
    assert name == name[..k] + name[k..];
  }

  /** hasType holds exactly for the names of the table's entries: 11 scalars, their vectors of width 2, 3, 4, 8 and 16, and bool. */
  lemma HasTypeIffTableName(name: string)
    ensures HasType(name) <==> exists c :: ValidConverter(c) && ConverterName(c) == name
  {
    if HasType(name) {
      ConverterForOnlyName(name);
    }
    if c :| ValidConverter(c) && ConverterName(c) == name {
      ConverterForName(c);
    }
  }

  /** What a converter hands to clSetKernelArg: the integers it read, or the cl_bool word. */
  datatype Payload = Elements(values: seq<int>) | BoolWord(bit: nat)

  /** A converter's outcome: a size and payload for clSetKernelArg, or a status. */
  datatype Conversion = Converted(size: nat, payload: Payload) | Rejected(status: int)

  /** The size of one vector element pack as the source computes it: N elements. */
  function VectorSizeAsWritten(b: Base, n: nat): nat {
    BaseSize(b) * n
  }

  /** The number of elements a vector of width n occupies, padded to a 4-vector when n is 3. */
  function PaddedWidth(n: nat): nat {
    if n == 3 then 4 else n
  }

  /** The size of a vector type by section 6.1.5 of the OpenCL 1.2 specification: the next power of two of its width times its element size. */
  function ClVectorSize(b: Base, n: nat): nat
    requires VectorWidth(n)
  {
    BaseSize(b) * NextPowerOfTwo(n)
  }

  function NextPowerOfTwo(n: nat): (p: nat)
    ensures p >= n && p >= 1
  {
    if n <= 1 then 1 else 2 * NextPowerOfTwo((n + 1) / 2)
  }

  /** The integers a vector converter reads from an array of numbers. */
  function ReadIntegers(items: seq<Value>): (ns: seq<int>)
    ensures |ns| == |items|
    ensures forall k :: 0 <= k < |items| ==> ns[k] == IntegerOf(items[k])
  {
    seq(|items|, k requires 0 <= k < |items| => IntegerOf(items[k]))
  }

  /**
   * One converter on one JS value, with the vector size as a parameter:
   * the converter table of the source uses N elements for every width.
   */
  function ConvertWith(c: Converter, val: Value, vectorSize: (Base, nat) -> nat): (r: Conversion)
    requires ValidConverter(c)
  {
    match c
    case Scalar(b) =>
      if !val.Number? then Rejected(CL_INVALID_ARG_VALUE) else Converted(BaseSize(b), Elements([val.n]))
    case Vector(b, n) =>
      if !val.Array? then Rejected(CL_INVALID_ARG_VALUE)
      else if |val.items| != n then Rejected(CL_INVALID_ARG_SIZE)
      else if exists k :: 0 <= k < n && !val.items[k].Number? then Rejected(CL_INVALID_ARG_VALUE)
      else Converted(vectorSize(b, n), Elements(ReadIntegers(val.items)))
    case BoolConv =>
      Converted(4, BoolWord(if Truthy(val) then 1 else 0))
  }

  /**
   * The converters as written, which setKernelArg uses: a scalar wants a
   * number; a vector wants an array, then the right length, then numbers
   * only, and is passed as N elements; bool takes anything.
   */
  function ConvertAsWritten(c: Converter, val: Value): (r: Conversion)
    requires ValidConverter(c)
    ensures c.Scalar? ==> (r.Converted? <==> val.Number?)
    ensures c.Scalar? && r.Converted? ==> r.size == BaseSize(c.base) && r.payload == Elements([val.n])
    ensures c.Scalar? && r.Rejected? ==> r.status == CL_INVALID_ARG_VALUE
    ensures c.Vector? && !val.Array? ==> r == Rejected(CL_INVALID_ARG_VALUE)
    ensures c.Vector? && val.Array? && |val.items| != c.width ==> r == Rejected(CL_INVALID_ARG_SIZE)
    ensures c.Vector? && val.Array? && |val.items| == c.width ==>
      (r.Converted? <==> forall k :: 0 <= k < c.width ==> val.items[k].Number?)
    ensures c.Vector? && r.Converted? ==>
      && r.size == VectorSizeAsWritten(c.base, c.width)
      && r.payload.Elements? && |r.payload.values| == c.width
      && (forall k :: 0 <= k < c.width ==> r.payload.values[k] == val.items[k].n)
    ensures c.Vector? && r.Rejected? && val.Array? && |val.items| == c.width ==> r.status == CL_INVALID_ARG_VALUE
    ensures c.BoolConv? ==> r == Converted(4, BoolWord(if Truthy(val) then 1 else 0))
  {
    ConvertWith(c, val, VectorSizeAsWritten)
  }

  /**
   * The converters with 3-vectors padded to 4 elements, as the OpenCL C
   * type sizes demand. Checks come in the source's order: a scalar wants a
   * number; a vector wants an array, then the right length, then numbers
   * only; bool takes anything.
   */
  function Convert(c: Converter, val: Value): (r: Conversion)
    requires ValidConverter(c)
    ensures c.Scalar? ==> (r.Converted? <==> val.Number?)
    ensures c.Scalar? && r.Converted? ==> r.size == BaseSize(c.base) && r.payload == Elements([val.n])
    ensures c.Scalar? && r.Rejected? ==> r.status == CL_INVALID_ARG_VALUE
    ensures c.Vector? && !val.Array? ==> r == Rejected(CL_INVALID_ARG_VALUE)
    ensures c.Vector? && val.Array? && |val.items| != c.width ==> r == Rejected(CL_INVALID_ARG_SIZE)
    ensures c.Vector? && val.Array? && |val.items| == c.width ==>
      (r.Converted? <==> forall k :: 0 <= k < c.width ==> val.items[k].Number?)
    ensures c.Vector? && r.Converted? ==>
      && r.payload.Elements? && |r.payload.values| == c.width
      && (forall k :: 0 <= k < c.width ==> r.payload.values[k] == val.items[k].n)
    ensures c.Vector? && r.Rejected? && val.Array? && |val.items| == c.width ==> r.status == CL_INVALID_ARG_VALUE
    ensures c.BoolConv? ==> r == Converted(4, BoolWord(if Truthy(val) then 1 else 0))
  {
    ConvertWith(c, val, (b: Base, n: nat) => BaseSize(b) * PaddedWidth(n))
  }

  /** Every converted value has the size its OpenCL C type has, 3-vectors included. */
  lemma ConvertedSizeIsTypeSize(c: Converter, val: Value)
    requires c.Vector? && VectorWidth(c.width) && Convert(c, val).Converted?
    ensures Convert(c, val).size == ClVectorSize(c.base, c.width)
  {
    assert NextPowerOfTwo(2) == 2;
    assert NextPowerOfTwo(4) == 4;
    assert NextPowerOfTwo(8) == 8;
    assert NextPowerOfTwo(16) == 16;
  }

  /**
   * The converter as written passes a float3 argument as 12 bytes, where
   * the type occupies 16, so clSetKernelArg is handed a size that does not
   * match the argument.
   */
  lemma ThreeVectorSizeAsWritten()
    ensures var r := ConvertAsWritten(Vector(Float, 3), Array([Number(1), Number(2), Number(3)]));
      r.Converted? && r.size == 12 && ClVectorSize(Float, 3) == 16
  {
    assert NextPowerOfTwo(3) == 4;
  }

  /** Both converter tables agree except for the size of 3-vectors. */
  lemma ConvertersAgreeBesideThreeVectors(c: Converter, val: Value)
    requires ValidConverter(c) && !(c.Vector? && c.width == 3)
    ensures Convert(c, val) == ConvertAsWritten(c, val)
  {
  }

  /** The argument handed to clSetKernelArg. */
  datatype ArgValue =
    /** a __local argument: only its size, with a null value */
    | LocalArg
    /** a memory object or sampler: the handle's pointer */
    | HandleArg(p: Ptr)
    /** a primitive converted by the table */
    | PrimitiveArg(payload: Payload)

  datatype SetArgCall = SetArgCall(kernel: Ptr, index: nat, size: nat, value: ArgValue)

  /** What clGetKernelArgInfo answers when setKernelArg looks up an argument's type itself. */
  datatype Introspection = Introspection(qualifierStatus: int, qualifier: nat, sizeStatus: int, nameStatus: int, typeName: string)

  /** The introspection queries all succeed. */
  predicate Introspected(i: Introspection) {
    i.qualifierStatus == CL_SUCCESS && i.sizeStatus == CL_SUCCESS && i.nameStatus == CL_SUCCESS
  }

  /** The type name setKernelArg dispatches on, and whether the argument is __local. */
  function ResolvedType(typeArg: Value, intro: Introspection): (string, bool)
    requires IsEmpty(typeArg) || typeArg.Str?
  {
    if IsEmpty(typeArg) then (intro.typeName, intro.qualifier == CL_KERNEL_ARG_ADDRESS_LOCAL)
    else (typeArg.s, typeArg.s == "local" || typeArg.s == "__local")
  }

  /** The type name's last character is read only for a name that has one. */
  predicate TypeNameReadable(typeArg: Value, intro: Introspection) {
    (IsEmpty(typeArg) && Introspected(intro) ==> intro.qualifier != CL_KERNEL_ARG_ADDRESS_LOCAL ==> intro.typeName != [])
    && (typeArg.Str? ==> !(typeArg.s == "local" || typeArg.s == "__local") ==> typeArg.s != [])
  }

  /** The name ends in '*': a pointer argument. */
  predicate PointerTypeName(name: string) {
    name != [] && name[|name| - 1] == '*'
  }

  const UnsupportedPrefix: string := "Unsupported OpenCL argument type: "

  /** size_t of a JS number: its integer value modulo 2^64. */
  function SizeValue(v: Value): nat {
    IntegerOf(v) % 0x1_0000_0000_0000_0000
  }

  /** A type setKernelArg passes as a handle: a pointer, cl_mem or sampler_t. */
  predicate HandleTypeName(name: string) {
    PointerTypeName(name) || name == "cl_mem" || name == "sampler_t"
  }

  /**
   * The value argument is unwrapped only for a non-local handle type; any
   * object there must then be a wrapper, while every other case reads it as
   * a number, an array or a truth value.
   */
  predicate ValueReadable(typeArg: Value, valueArg: Value, intro: Introspection) {
    (IsEmpty(typeArg) || typeArg.Str?) ==>
      var (name, local) := ResolvedType(typeArg, intro);
      !local && HandleTypeName(name) ==> (IsObject(valueArg) ==> valueArg.Wrapped?)
  }

  /**
   * setKernelArg: with no type name given, the address qualifier and type
   * name are queried; a given name must be a string, and "local" or
   * "__local" mark a local argument. Then the first matching case decides:
   * a local argument takes its size from argument 3, a pointer, cl_mem or
   * sampler_t argument takes the wrapper of argument 3, a primitive goes
   * through the converter table as written, and anything else throws. A
   * set status other than success throws; otherwise the call returns 0.
   */
  function SetKernelArg(kernelArg: Value, index: nat, typeArg: Value, valueArg: Value, intro: Introspection, setStatus: int)
    : (r: (Call<int>, Option<SetArgCall>))
    requires IsObject(kernelArg) ==> kernelArg.Wrapped?
    requires ValueReadable(typeArg, valueArg, intro)
    requires TypeNameReadable(typeArg, intro)
    ensures !IsObject(kernelArg) ==> r == (Threw(ArgType(0, "Object")), None)
    ensures IsObject(kernelArg) && !IsEmpty(typeArg) && !typeArg.Str? ==> r == (Threw(ArgType(2, "String")), None)
    ensures r.1.Some? ==> IsObject(kernelArg) && r.1.value.kernel == kernelArg.h.data && r.1.value.index == index
    ensures r.0.Returned? ==> r.0.value == CL_SUCCESS && setStatus == CL_SUCCESS && r.1.Some?
    ensures r.1.Some? && setStatus != CL_SUCCESS ==> r.0 == ThrowErr(setStatus)
    ensures IsObject(kernelArg) && (IsEmpty(typeArg) || typeArg.Str?) ==>
      var (name, local) := ResolvedType(typeArg, intro);
      && (IsEmpty(typeArg) && !Introspected(intro) ==> r.0.Threw? && r.1.None?)
      && (IsEmpty(typeArg) ==> Introspected(intro) || typeArg.Str? ==> (
          && (local && valueArg.Number? ==> r.1 == Some(SetArgCall(kernelArg.h.data, index, SizeValue(valueArg), LocalArg)))
          && (local && !valueArg.Number? ==> r == (Threw(ArgType(3, "Number")), None))
          && (!local && HandleTypeName(name) ==>
                (IsObject(valueArg) ==> r.1 == Some(SetArgCall(kernelArg.h.data, index, PointerSize, HandleArg(valueArg.h.data))))
                && (!IsObject(valueArg) ==> r == (Threw(ArgType(3, "Object")), None)))
          && (!local && !HandleTypeName(name) && HasType(name) ==>
                var conv := ConvertAsWritten(ConverterFor(name).value, valueArg);
                && (conv.Converted? ==> r.1 == Some(SetArgCall(kernelArg.h.data, index, conv.size, PrimitiveArg(conv.payload))))
                && (conv.Rejected? ==> r == (ThrowErr(conv.status), None)))
          && (!local && !HandleTypeName(name) && !HasType(name) ==>
                r == (Threw(Plain(UnsupportedPrefix + name)), None))))
  {
    var k := ReqClArg(0, kernelArg);
    if k.Threw? then (Threw(k.failure), None)
    else if !IsEmpty(typeArg) && !typeArg.Str? then (Threw(ArgType(2, "String")), None)
    else if IsEmpty(typeArg) && intro.qualifierStatus != CL_SUCCESS then (ThrowErr(intro.qualifierStatus), None)
    else if IsEmpty(typeArg) && intro.sizeStatus != CL_SUCCESS then (ThrowErr(intro.sizeStatus), None)
    else if IsEmpty(typeArg) && intro.nameStatus != CL_SUCCESS then (ThrowErr(intro.nameStatus), None)
    else
      var (name, local) := ResolvedType(typeArg, intro);
      var call :=
        if local then
          if valueArg.Number? then Returned(SetArgCall(k.value, index, SizeValue(valueArg), LocalArg))
          else Threw(ArgType(3, "Number"))
        else if name[|name| - 1] == '*' || name == "cl_mem" || name == "sampler_t" then
          var m := ReqClArg(3, valueArg);
          if m.Threw? then Threw(m.failure) else Returned(SetArgCall(k.value, index, PointerSize, HandleArg(m.value)))
        else if HasType(name) then
          match ConvertAsWritten(ConverterFor(name).value, valueArg)
          case Rejected(status) => ThrowErr(status)
          case Converted(size, payload) => Returned(SetArgCall(k.value, index, size, PrimitiveArg(payload)))
        else Threw(Plain(UnsupportedPrefix + name));
      if call.Threw? then (Threw(call.failure), None)
      else (CheckErr(setStatus, Returned(CL_SUCCESS)), Some(call.value))
  }

  /**
   * The cases are tried in order, so a "local" argument never reaches the
   * converters, and neither does a pointer or sampler type, even one whose
   * name would also be a table key.
   */
  lemma PointerNamesAreNotPrimitives(name: string)
    requires PointerTypeName(name) || name == "cl_mem" || name == "sampler_t"
    ensures !HasType(name)
  {
    if HasType(name) {
      ConverterForOnlyName(name);
    }
  }

  /** No key of the converter table is a handle type or a local marker. */
  lemma TableNamesArePrimitives(c: Converter)
    requires ValidConverter(c)
    ensures ConverterName(c) != [] && !HandleTypeName(ConverterName(c))
    ensures ConverterName(c) != "local" && ConverterName(c) != "__local"
  {
    var name := ConverterName(c);
    ConverterForName(c);
    if HandleTypeName(name) {
      PointerNamesAreNotPrimitives(name);
    }
    assert FirstDigit("local") == 5;
    assert FirstDigit("__local") == 7;
  }

  /**
   * For every key of the converter table, setKernelArg hands the driver
   * exactly what the converter as written produces, with the converter's
   * size, and throws the converter's status when it rejects the value.
   */
  lemma SetKernelArgPrimitive(h: Handle, index: nat, c: Converter, valueArg: Value, intro: Introspection, setStatus: int)
    requires ValidConverter(c)
    ensures TypeNameReadable(Str(ConverterName(c)), intro) && ValueReadable(Str(ConverterName(c)), valueArg, intro)
    ensures var r := SetKernelArg(Wrapped(h), index, Str(ConverterName(c)), valueArg, intro, setStatus);
      var conv := ConvertAsWritten(c, valueArg);
      && (conv.Converted? ==>
            && r.1 == Some(SetArgCall(h.data, index, conv.size, PrimitiveArg(conv.payload)))
            && (r.0.Returned? <==> setStatus == CL_SUCCESS))
      && (conv.Rejected? ==> r == (ThrowErr(conv.status), None))
  {
    TableNamesArePrimitives(c);
    ConverterForName(c);
  }

  /**
   * Leaving the type name out is the same as giving the name introspection
   * reports, for an argument that is not local.
   */
  lemma IntrospectedTypeAgrees(kernelArg: Value, index: nat, valueArg: Value, intro: Introspection, setStatus: int)
    requires kernelArg.Wrapped? && Introspected(intro)
    requires intro.qualifier != CL_KERNEL_ARG_ADDRESS_LOCAL && intro.typeName != []
    requires intro.typeName != "local" && intro.typeName != "__local"
    requires ValueReadable(Undefined, valueArg, intro)
    ensures ValueReadable(Str(intro.typeName), valueArg, intro)
    ensures SetKernelArg(kernelArg, index, Undefined, valueArg, intro, setStatus)
      == SetKernelArg(kernelArg, index, Str(intro.typeName), valueArg, intro, setStatus)
  {
  }

  /**
   * Through setKernelArg as written, a float3 argument reaches the driver
   * as 12 bytes of three elements, where the type occupies 16.
   */
  lemma SetKernelArgFloat3AsWritten(h: Handle, index: nat, intro: Introspection)
    ensures var r := SetKernelArg(Wrapped(h), index, Str("float3"), Array([Number(1), Number(2), Number(3)]), intro, CL_SUCCESS);
      && r.0 == Returned(CL_SUCCESS)
      && r.1 == Some(SetArgCall(h.data, index, 12, PrimitiveArg(Elements([1, 2, 3]))))
      && ClVectorSize(Float, 3) == 16
  {
    var c := Vector(Float, 3);
    var v := Array([Number(1), Number(2), Number(3)]);
    assert ConverterName(c) == "float3";
    var conv := ConvertAsWritten(c, v);
    ThreeVectorSizeAsWritten();
    assert conv.payload.values == [1, 2, 3];
    SetKernelArgPrimitive(h, index, c, v, intro, CL_SUCCESS);
  }

  /** createKernel: a program wrapper and a name string, one driver status. */
  function CreateKernel(programArg: Value, name: Value, status: int, k: Ptr): (r: Call<Value>)
    requires IsObject(programArg) ==> programArg.Wrapped?
    ensures !IsObject(programArg) ==> r == Threw(ArgType(0, "Object"))
    ensures IsObject(programArg) && !name.Str? ==> r == Threw(ArgType(1, "String"))
    ensures IsObject(programArg) && name.Str? ==> r == CheckErr(status, Returned(Wrapped(FromRaw(Legacy, KernelId, k))))
  {
    var p := ReqClArg(0, programArg);
    if p.Threw? then Threw(p.failure)
    else if !name.Str? then Threw(ArgType(1, "String"))
    else CheckErr(status, Returned(Wrapped(FromRaw(Legacy, KernelId, k))))
  }

  /**
   * createKernelsInProgram: the count query, a program without kernels
   * throws INVALID_VALUE, then the kernels query; the new kernels are
   * wrapped as they come, without a retain.
   */
  function CreateKernelsInProgram(programArg: Value, countStatus: int, kernels: seq<Ptr>, listStatus: int): (r: Call<Value>)
    requires IsObject(programArg) ==> programArg.Wrapped?
    ensures !IsObject(programArg) ==> r == Threw(ArgType(0, "Object"))
    ensures IsObject(programArg) && countStatus != CL_SUCCESS ==> r == ThrowErr(countStatus)
    ensures IsObject(programArg) && countStatus == CL_SUCCESS && kernels == [] ==> r == ThrowErr(CL_INVALID_VALUE)
    ensures r.Returned? <==> IsObject(programArg) && countStatus == CL_SUCCESS && kernels != [] && listStatus == CL_SUCCESS
    ensures r.Returned? ==>
      && r.value.Array? && |r.value.items| == |kernels|
      && forall i :: 0 <= i < |kernels| ==> r.value.items[i] == Wrapped(FromRaw(Legacy, KernelId, kernels[i]))
  {
    var p := ReqClArg(0, programArg);
    if p.Threw? then Threw(p.failure)
    else if countStatus != CL_SUCCESS then ThrowErr(countStatus)
    else if |kernels| == 0 then ThrowErr(CL_INVALID_VALUE)
    else CheckErr(listStatus, Returned(HandlesValue(seq(|kernels|, i requires 0 <= i < |kernels| => FromRaw(Legacy, KernelId, kernels[i])))))
  }

  /** The kernels handed out unwrap to the pointers the driver created, in the driver's order. */
  lemma CreatedKernelsUnwrap(programArg: Value, name: Value, status: int, k: Ptr, kernels: seq<Ptr>, listStatus: int)
    requires programArg.Wrapped?
    ensures CreateKernel(programArg, name, status, k).Returned? ==> As(CreateKernel(programArg, name, status, k).value.h) == k
    ensures var r := CreateKernelsInProgram(programArg, CL_SUCCESS, kernels, listStatus);
      r.Returned? ==> forall i :: 0 <= i < |kernels| ==> As(r.value.items[i].h) == kernels[i]
  {
    WrapUnwrapRoundTrip(Legacy, KernelId, k);
    forall i | 0 <= i < |kernels|
      ensures As(FromRaw(Legacy, KernelId, kernels[i])) == kernels[i]
    {
      WrapUnwrapRoundTrip(Legacy, KernelId, kernels[i]);
    }
  }

  /** The answer shape of each getKernelInfo name. */
  function KernelInfoShape(param: nat): Option<Shape> {
    if param == CL_KERNEL_ATTRIBUTES || param == CL_KERNEL_FUNCTION_NAME then Some(TextOf)
    else if param == CL_KERNEL_NUM_ARGS || param == CL_KERNEL_REFERENCE_COUNT then Some(NumberOf)
    else if param == CL_KERNEL_CONTEXT then Some(HandleOf(ContextId, Some(Context), false))
    else if param == CL_KERNEL_PROGRAM then Some(HandleOf(ProgramId, Some(Program), false))
    else None
  }

  /** The answer shape of each getKernelArgInfo name. */
  function KernelArgInfoShape(param: nat): Option<Shape> {
    if param == CL_KERNEL_ARG_ADDRESS_QUALIFIER || param == CL_KERNEL_ARG_ACCESS_QUALIFIER
      || param == CL_KERNEL_ARG_TYPE_QUALIFIER then Some(NumberOf)
    else if param == CL_KERNEL_ARG_TYPE_NAME || param == CL_KERNEL_ARG_NAME then Some(TextOf)
    else None
  }

  /** The answer shape of each getKernelWorkGroupInfo name. */
  function KernelWorkGroupInfoShape(param: nat): Option<Shape> {
    if param == CL_KERNEL_GLOBAL_WORK_SIZE || param == CL_KERNEL_COMPILE_WORK_GROUP_SIZE then Some(NumbersOf)
    else if param == CL_KERNEL_PREFERRED_WORK_GROUP_SIZE_MULTIPLE || param == CL_KERNEL_WORK_GROUP_SIZE then Some(NumberOf)
    else if param == CL_KERNEL_LOCAL_MEM_SIZE || param == CL_KERNEL_PRIVATE_MEM_SIZE then Some(HalvesOf)
    else None
  }

  /**
   * getKernelInfo: the kernel (argument 0), then the switch: the attribute
   * and function-name strings, the argument and reference counts, and the
   * context or program, retained before it is wrapped.
   */
  function GetKernelInfo(kernelArg: Value, param: nat, status: int, answer: Answer, d: Driver): (r: (Call<Value>, Driver))
    requires IsObject(kernelArg) ==> kernelArg.Wrapped?
    requires KernelInfoShape(param).Some? && status == CL_SUCCESS ==> Fits(KernelInfoShape(param).value, answer)
    ensures !IsObject(kernelArg) ==> r == (Threw(ArgType(0, "Object")), d)
    ensures IsObject(kernelArg) && KernelInfoShape(param).None? ==> r == (ThrowErr(CL_INVALID_VALUE), d)
    ensures IsObject(kernelArg) && KernelInfoShape(param).Some? && status != CL_SUCCESS ==> r == (ThrowErr(status), d)
    ensures IsObject(kernelArg) && (param == CL_KERNEL_ATTRIBUTES || param == CL_KERNEL_FUNCTION_NAME) && status == CL_SUCCESS ==>
      r == (Returned(Str(answer.s)), d)
    ensures IsObject(kernelArg) && (param == CL_KERNEL_NUM_ARGS || param == CL_KERNEL_REFERENCE_COUNT) && status == CL_SUCCESS ==>
      r == (Returned(Number(answer.n)), d)
    ensures IsObject(kernelArg) && (param == CL_KERNEL_CONTEXT || param == CL_KERNEL_PROGRAM) && status == CL_SUCCESS ==>
      && r.1.log == d.log + [RetainCall(if param == CL_KERNEL_CONTEXT then Context else Program, answer.p)]
      && (r.0.Returned? <==> answer.p in d.counts)
      && (r.0.Returned? ==> r.0.value == Wrapped(FromRaw(Legacy, if param == CL_KERNEL_CONTEXT then ContextId else ProgramId, answer.p)))
    ensures param != CL_KERNEL_CONTEXT && param != CL_KERNEL_PROGRAM ==> r.1 == d
  {
    var kernel := ReqClArg(0, kernelArg);
    if kernel.Threw? then (Threw(kernel.failure), d)
    else Query(Legacy, KernelInfoShape(param), status, answer, d)
  }

  /** The getKernelArgInfo names answered with a number. */
  predicate ArgQualifierName(param: nat) {
    param == CL_KERNEL_ARG_ADDRESS_QUALIFIER || param == CL_KERNEL_ARG_ACCESS_QUALIFIER
    || param == CL_KERNEL_ARG_TYPE_QUALIFIER
  }

  /** The getKernelArgInfo names answered with a string, whose length is queried first. */
  predicate ArgTextName(param: nat) {
    param == CL_KERNEL_ARG_TYPE_NAME || param == CL_KERNEL_ARG_NAME
  }

  /**
   * getKernelArgInfo: the three qualifiers come back as numbers; the type
   * name and argument name are sized by a first query (`sizeStatus`), then
   * read and returned as strings.
   */
  function GetKernelArgInfo(kernelArg: Value, param: nat, sizeStatus: int, status: int, answer: Answer): (r: Call<Value>)
    requires IsObject(kernelArg) ==> kernelArg.Wrapped?
    requires KernelArgInfoShape(param).Some? && status == CL_SUCCESS ==> Fits(KernelArgInfoShape(param).value, answer)
    ensures !IsObject(kernelArg) ==> r == Threw(ArgType(0, "Object"))
    ensures IsObject(kernelArg) && !ArgQualifierName(param) && !ArgTextName(param) ==> r == ThrowErr(CL_INVALID_VALUE)
    ensures IsObject(kernelArg) && ArgQualifierName(param) ==>
      r == (if status == CL_SUCCESS then Returned(Number(answer.n)) else ThrowErr(status))
    ensures IsObject(kernelArg) && ArgTextName(param) && sizeStatus != CL_SUCCESS ==> r == ThrowErr(sizeStatus)
    ensures IsObject(kernelArg) && ArgTextName(param) && sizeStatus == CL_SUCCESS ==>
      r == (if status == CL_SUCCESS then Returned(Str(answer.s)) else ThrowErr(status))
  {
    var kernel := ReqClArg(0, kernelArg);
    if kernel.Threw? then Threw(kernel.failure)
    else if ArgTextName(param) && sizeStatus != CL_SUCCESS then ThrowErr(sizeStatus)
    else Query(Legacy, KernelArgInfoShape(param), status, answer, Driver(map[], [])).0
  }

  /**
   * setKernelArg, given no type name, asks the driver the same two
   * questions getKernelArgInfo answers: it dispatches on the TYPE_NAME
   * string, and treats the argument as local exactly when the
   * ADDRESS_QUALIFIER number is CL_KERNEL_ARG_ADDRESS_LOCAL.
   */
  lemma IntrospectionMatchesArgInfo(kernel: Handle, q: nat, typeName: string)
    ensures GetKernelArgInfo(Wrapped(kernel), CL_KERNEL_ARG_ADDRESS_QUALIFIER, CL_SUCCESS, CL_SUCCESS, NumberAnswer(q)) == Returned(Number(q))
    ensures GetKernelArgInfo(Wrapped(kernel), CL_KERNEL_ARG_TYPE_NAME, CL_SUCCESS, CL_SUCCESS, TextAnswer(typeName)) == Returned(Str(typeName))
    ensures ResolvedType(Undefined, Introspection(CL_SUCCESS, q, CL_SUCCESS, CL_SUCCESS, typeName))
      == (typeName, q == CL_KERNEL_ARG_ADDRESS_LOCAL)
  {
  }

  /** The getKernelWorkGroupInfo names answered with three size_t. */
  predicate WorkSizesName(param: nat) {
    param == CL_KERNEL_GLOBAL_WORK_SIZE || param == CL_KERNEL_COMPILE_WORK_GROUP_SIZE
  }

  /** The getKernelWorkGroupInfo names answered with one size_t. */
  predicate WorkGroupSizeName(param: nat) {
    param == CL_KERNEL_PREFERRED_WORK_GROUP_SIZE_MULTIPLE || param == CL_KERNEL_WORK_GROUP_SIZE
  }

  /** The getKernelWorkGroupInfo names answered with a cl_ulong. */
  predicate MemSizeName(param: nat) {
    param == CL_KERNEL_LOCAL_MEM_SIZE || param == CL_KERNEL_PRIVATE_MEM_SIZE
  }

  /**
   * getKernelWorkGroupInfo: the kernel (argument 0) and the device
   * (argument 1), then the switch: the global and compile work sizes come
   * back as three numbers, the work-group sizes as one number, and the
   * local and private memory sizes as [hi, lo] halves.
   */
  function GetKernelWorkGroupInfo(kernelArg: Value, deviceArg: Value, param: nat, status: int, answer: Answer): (r: Call<Value>)
    requires IsObject(kernelArg) ==> kernelArg.Wrapped?
    requires IsObject(deviceArg) ==> deviceArg.Wrapped?
    requires KernelWorkGroupInfoShape(param).Some? && status == CL_SUCCESS ==> Fits(KernelWorkGroupInfoShape(param).value, answer)
    requires WorkSizesName(param) && status == CL_SUCCESS ==> |answer.ns| == 3
    ensures !IsObject(kernelArg) ==> r == Threw(ArgType(0, "Object"))
    ensures IsObject(kernelArg) && !IsObject(deviceArg) ==> r == Threw(ArgType(1, "Object"))
    ensures IsObject(kernelArg) && IsObject(deviceArg) ==>
      && (!WorkSizesName(param) && !WorkGroupSizeName(param) && !MemSizeName(param) ==> r == ThrowErr(CL_INVALID_VALUE))
      && ((WorkSizesName(param) || WorkGroupSizeName(param) || MemSizeName(param)) && status != CL_SUCCESS ==> r == ThrowErr(status))
      && (WorkSizesName(param) && status == CL_SUCCESS ==>
            && r.Returned? && r.value.Array? && |r.value.items| == 3
            && forall k :: 0 <= k < 3 ==> r.value.items[k] == Number(answer.ns[k]))
      && (WorkGroupSizeName(param) && status == CL_SUCCESS ==> r == Returned(Number(answer.n)))
      && (MemSizeName(param) && status == CL_SUCCESS ==> r == Returned(HalvesValue(answer.w)))
  {
    var kernel := ReqClArg(0, kernelArg);
    if kernel.Threw? then Threw(kernel.failure)
    else
      var device := ReqClArg(1, deviceArg);
      if device.Threw? then Threw(device.failure)
      else Query(Legacy, KernelWorkGroupInfoShape(param), status, answer, Driver(map[], [])).0
  }

  /** A local or private memory size, read back from its two JS numbers, is the driver's cl_ulong. */
  lemma KernelMemSizeRoundTrip(kernel: Handle, device: Handle, param: nat, w: bv64)
    requires MemSizeName(param)
    ensures GetKernelWorkGroupInfo(Wrapped(kernel), Wrapped(device), param, CL_SUCCESS, WideAnswer(w)) == Returned(HalvesValue(w))
    ensures var h := HalvesValue(w); Split64.Join(h.items[0].n as bv64, h.items[1].n as bv64) == w
  {
    HalvesJoin(w);
  }
}
