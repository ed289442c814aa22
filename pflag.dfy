/**
 The part of the pflag library that the provider reads: the flag registry
 (a FlagSet), the flags it holds, and the typed getters that look a flag
 up by its name.  Parsing the command line is not modelled; the registry
 is given, already populated, in the order VisitAll visits it.
 */
module Pflag {
  import opened Wrappers

  newtype Int8 = x: int | -0x80 <= x < 0x80
  newtype Int16 = x: int | -0x8000 <= x < 0x8000
  newtype Int32 = x: int | -0x8000_0000 <= x < 0x8000_0000
  newtype Int64 = x: int | -0x8000_0000_0000_0000 <= x < 0x8000_0000_0000_0000

  /** Floating-point values are only passed through: an opaque bit pattern. */
  datatype Float32 = Float32(bits32: bv32)
  datatype Float64 = Float64(bits64: bv64)

  /**
   The typed value behind a flag.  Go's `int` is taken to be 64 bits wide.
   Every other type (string, duration, uint, a user-defined Value, ...) is
   an OtherValue carrying the name its Type() method returns.
   */
  datatype FlagValue =
    | IntValue(int0: Int64)
    | Int8Value(int8: Int8)
    | Int16Value(int16: Int16)
    | Int32Value(int32: Int32)
    | Int64Value(int64: Int64)
    | Float32Value(float32: Float32)
    | Float64Value(float64: Float64)
    | BoolValue(bool0: bool)
    | StringSliceValue(strings: seq<string>)
    | IntSliceValue(ints: seq<Int64>)
    | OtherValue(typeName: string)
  {
    /** The name pflag's Value.Type() reports for this value. */
    function Type(): string {
      match this
      case IntValue(_) => "int"
      case Int8Value(_) => "int8"
      case Int16Value(_) => "int16"
      case Int32Value(_) => "int32"
      case Int64Value(_) => "int64"
      case Float32Value(_) => "float32"
      case Float64Value(_) => "float64"
      case BoolValue(_) => "bool"
      case StringSliceValue(_) => "stringSlice"
      case IntSliceValue(_) => "intSlice"
      case OtherValue(t) => t
    }
  }

  /**
   One defined flag: its name, whether the command line set it, its typed
   value, and `text`, what the value's String() method renders (pflag's
   number and list formatting is not modelled, so the rendering is given).
   */
  datatype Flag = Flag(name: string, changed: bool, value: FlagValue, text: string)

  /** A registry, in VisitAll order. */
  type FlagSet = seq<Flag>

  /** pflag keeps its flags in a map keyed by name, so names are distinct. */
  ghost predicate UniqueNames(flags: FlagSet) {
    forall i, j :: 0 <= i < j < |flags| ==> flags[i].name != flags[j].name
  }

  /** FlagSet.Lookup: the flag registered under `name`, if any. */
  function Lookup(flags: FlagSet, name: string): (r: Option<Flag>)
    ensures r.Some? ==> r.value in flags && r.value.name == name
    ensures r.None? <==> forall f :: f in flags ==> f.name != name
    ensures UniqueNames(flags) ==> forall f :: f in flags && f.name == name ==> r == Some(f)
  {
    if flags == [] then None
    else if flags[0].name == name then Some(flags[0])
    else
      assert UniqueNames(flags) ==> UniqueNames(flags[1..]) by {
        if UniqueNames(flags) {
          forall a, b | 0 <= a < b < |flags| - 1
            ensures flags[1..][a].name != flags[1..][b].name
          {
            assert flags[1..][a] == flags[a + 1] && flags[1..][b] == flags[b + 1];
          }
        }
      }
      Lookup(flags[1..], name)
  }

  /**
   In a registry with distinct names, looking a flag up by its own name
   finds it: a corollary of Lookup's last ensures, by position.
   */
  lemma LookupOwn(flags: FlagSet, i: nat)
    requires UniqueNames(flags)
    requires i < |flags|
    ensures Lookup(flags, flags[i].name) == Some(flags[i])
  {
  }

  // The typed getters.  Each fails (and the provider then uses the zero
  // value of the type) when no flag has the name or the flag has another
  // type; in a registry with distinct names each reads the named flag's value.

  function GetInt(flags: FlagSet, name: string): (r: Int64)
    ensures (forall f :: f in flags ==> f.name != name) ==> r == 0
    ensures UniqueNames(flags) ==> forall f :: f in flags && f.name == name ==>
              r == if f.value.IntValue? then f.value.int0 else 0
  {
    match Lookup(flags, name)
    case Some(Flag(_, _, IntValue(n), _)) => n
    case _ => 0
  }

  function GetInt8(flags: FlagSet, name: string): (r: Int8)
    ensures (forall f :: f in flags ==> f.name != name) ==> r == 0
    ensures UniqueNames(flags) ==> forall f :: f in flags && f.name == name ==>
              r == if f.value.Int8Value? then f.value.int8 else 0
  {
    match Lookup(flags, name)
    case Some(Flag(_, _, Int8Value(n), _)) => n
    case _ => 0
  }

  function GetInt16(flags: FlagSet, name: string): (r: Int16)
    ensures (forall f :: f in flags ==> f.name != name) ==> r == 0
    ensures UniqueNames(flags) ==> forall f :: f in flags && f.name == name ==>
              r == if f.value.Int16Value? then f.value.int16 else 0
  {
    match Lookup(flags, name)
    case Some(Flag(_, _, Int16Value(n), _)) => n
    case _ => 0
  }

  function GetInt32(flags: FlagSet, name: string): (r: Int32)
    ensures (forall f :: f in flags ==> f.name != name) ==> r == 0
    ensures UniqueNames(flags) ==> forall f :: f in flags && f.name == name ==>
              r == if f.value.Int32Value? then f.value.int32 else 0
  {
    match Lookup(flags, name)
    case Some(Flag(_, _, Int32Value(n), _)) => n
    case _ => 0
  }

  function GetInt64(flags: FlagSet, name: string): (r: Int64)
    ensures (forall f :: f in flags ==> f.name != name) ==> r == 0
    ensures UniqueNames(flags) ==> forall f :: f in flags && f.name == name ==>
              r == if f.value.Int64Value? then f.value.int64 else 0
  {
    match Lookup(flags, name)
    case Some(Flag(_, _, Int64Value(n), _)) => n
    case _ => 0
  }

  function GetFloat32(flags: FlagSet, name: string): (r: Float32)
    ensures (forall f :: f in flags ==> f.name != name) ==> r == Float32(0)
    ensures UniqueNames(flags) ==> forall f :: f in flags && f.name == name ==>
              r == if f.value.Float32Value? then f.value.float32 else Float32(0)
  {
    match Lookup(flags, name)
    case Some(Flag(_, _, Float32Value(x), _)) => x
    case _ => Float32(0)
  }

  function GetFloat64(flags: FlagSet, name: string): (r: Float64)
    ensures (forall f :: f in flags ==> f.name != name) ==> r == Float64(0)
    ensures UniqueNames(flags) ==> forall f :: f in flags && f.name == name ==>
              r == if f.value.Float64Value? then f.value.float64 else Float64(0)
  {
    match Lookup(flags, name)
    case Some(Flag(_, _, Float64Value(x), _)) => x
    case _ => Float64(0)
  }

  function GetBool(flags: FlagSet, name: string): (r: bool)
    ensures (forall f :: f in flags ==> f.name != name) ==> r == false
    ensures UniqueNames(flags) ==> forall f :: f in flags && f.name == name ==>
              r == if f.value.BoolValue? then f.value.bool0 else false
  {
    match Lookup(flags, name)
    case Some(Flag(_, _, BoolValue(b), _)) => b
    case _ => false
  }

  function GetStringSlice(flags: FlagSet, name: string): (r: seq<string>)
    ensures (forall f :: f in flags ==> f.name != name) ==> r == []
    ensures UniqueNames(flags) ==> forall f :: f in flags && f.name == name ==>
              r == if f.value.StringSliceValue? then f.value.strings else []
  {
    match Lookup(flags, name)
    case Some(Flag(_, _, StringSliceValue(ss), _)) => ss
    case _ => []
  }

  function GetIntSlice(flags: FlagSet, name: string): (r: seq<Int64>)
    ensures (forall f :: f in flags ==> f.name != name) ==> r == []
    ensures UniqueNames(flags) ==> forall f :: f in flags && f.name == name ==>
              r == if f.value.IntSliceValue? then f.value.ints else []
  {
    match Lookup(flags, name)
    case Some(Flag(_, _, IntSliceValue(ns), _)) => ns
    case _ => []
  }
}
