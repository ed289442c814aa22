/**
 The posflag provider: it walks a pflag registry and builds the flat
 key/value map that koanf then nests by the delimiter.  For every flag it
 decides the output key (raw name or rename hook), whether the flag
 contributes at all (changed, or an unchanged default the parent Koanf
 does not already hold), and how its value is represented (a switch on
 the Type() name).
 */
module Posflag {
  import opened Wrappers
  import opened Pflag

  /** The values the flat map holds (Go's `interface{}` in the source). */
  datatype Value =
    | IntVal(n: Int64)
    | Float32Val(x32: Float32)
    | Float64Val(x64: Float64)
    | BoolVal(b: bool)
    | StringVal(s: string)
    | StringsVal(ss: seq<string>)
    | IntsVal(ns: seq<Int64>)
    | CustomVal(id: nat)  // anything else a value callback may return

  /** The parent Koanf instance; the provider only asks it whether a key exists. */
  datatype Koanf = Koanf(holds: string -> bool) {
    predicate Exists(key: string) { holds(key) }
  }

  /** The value callback: (key, rendered value) to (new key, value); "" drops the flag. */
  type ValueHook = (string, string) -> (string, Value)

  /** The rename callback: the output key of a flag. */
  type RenameHook = Flag -> string

  /** The three optional settings of a provider, each possibly nil. */
  datatype Config = Config(
    ko: Option<Koanf>,
    valueCallback: Option<ValueHook>,
    keyNameCallback: Option<RenameHook>)

  const NoSettings := Config(None, None, None)

  /** The Option values ParentKoanf, ValueCallback and RenameCallback build. */
  datatype ProviderOption =
    | ParentKoanf(parent: Option<Koanf>)
    | ValueCallback(onValue: Option<ValueHook>)
    | RenameCallback(onRename: Option<RenameHook>)

  /** What running one option closure does to the settings: it sets the one field its kind names. */
  function ApplyOption(c: Config, o: ProviderOption): (r: Config)
    ensures r.ko == if o.ParentKoanf? then o.parent else c.ko
    ensures r.valueCallback == if o.ValueCallback? then o.onValue else c.valueCallback
    ensures r.keyNameCallback == if o.RenameCallback? then o.onRename else c.keyNameCallback
  {
    match o
    case ParentKoanf(k) => c.(ko := k)
    case ValueCallback(cb) => c.(valueCallback := cb)
    case RenameCallback(cb) => c.(keyNameCallback := cb)
  }

  /** The settings after running the options in order; a setting no option names stays as it was. */
  function ApplyAll(c: Config, options: seq<ProviderOption>): (r: Config)
    ensures (forall i :: 0 <= i < |options| ==> !options[i].ParentKoanf?) ==> r.ko == c.ko
    ensures (forall i :: 0 <= i < |options| ==> !options[i].ValueCallback?) ==> r.valueCallback == c.valueCallback
    ensures (forall i :: 0 <= i < |options| ==> !options[i].RenameCallback?) ==> r.keyNameCallback == c.keyNameCallback
  {
    if options == [] then c
    else ApplyOption(ApplyAll(c, options[..|options| - 1]), options[|options| - 1])
  }

  /** The output key of a flag: the rename callback's answer, or the raw name. */
  function KeyName(c: Config, f: Flag): (r: string)
    ensures c.keyNameCallback.Some? ==> r == c.keyNameCallback.value(f)
    ensures c.keyNameCallback.None? ==> r == f.name
  {
    match c.keyNameCallback
    case Some(cb) => cb(f)
    case None => f.name
  }

  /** The Type() names the switch handles, the 64-bit float's written as `floatTag`. */
  function Handled(floatTag: string): set<string> {
    {"int", "int8", "int16", "int32", "int64", "float32", floatTag, "bool", "stringSlice", "intSlice"}
  }

  /** The 64-bit float case label: pflag's float64 flags report "float64". */
  const Float64Tag := "float64"

  /** The label the source's switch actually uses for the 64-bit float case. */
  const Float64TagAsWritten := "float"

  /**
   The type switch for one flag that passed the inclusion check, with the
   64-bit float case labelled `floatTag`.  Values are read back through the
   typed getters by the flag's raw name; all integer widths become an Int64.
   For any other type the value callback, when set, picks the key and value
   (an empty key drops the flag); without one the rendering is stored.
   */
  function CoerceSwitch(floatTag: string, c: Config, flags: FlagSet, f: Flag, key: string)
    : (r: Option<(string, Value)>)
    ensures r.Some? && (f.value.Type() in Handled(floatTag) || c.valueCallback.None?) ==> r.value.0 == key
    ensures r.None? <==>
              && f.value.Type() !in Handled(floatTag)
              && c.valueCallback.Some?
              && c.valueCallback.value(key, f.text).0 == ""
  {
    var t := f.value.Type();
    if t == "int" then Some((key, IntVal(GetInt(flags, f.name))))
    else if t == "int8" then Some((key, IntVal(GetInt8(flags, f.name) as Int64)))
    else if t == "int16" then Some((key, IntVal(GetInt16(flags, f.name) as Int64)))
    else if t == "int32" then Some((key, IntVal(GetInt32(flags, f.name) as Int64)))
    else if t == "int64" then Some((key, IntVal(GetInt64(flags, f.name))))
    else if t == "float32" then Some((key, Float32Val(GetFloat32(flags, f.name))))
    else if t == floatTag then Some((key, Float64Val(GetFloat64(flags, f.name))))
    else if t == "bool" then Some((key, BoolVal(GetBool(flags, f.name))))
    else if t == "stringSlice" then Some((key, StringsVal(GetStringSlice(flags, f.name))))
    else if t == "intSlice" then Some((key, IntsVal(GetIntSlice(flags, f.name))))
    else
      match c.valueCallback
      case Some(cb) =>
        var (k, v) := cb(key, f.text);
        if k == "" then None else Some((k, v))
      case None => Some((key, StringVal(f.text)))
  }

  /** The type switch as the provider uses it: a float64 flag is stored as a 64-bit float. */
  function Coerce(c: Config, flags: FlagSet, f: Flag, key: string): (r: Option<(string, Value)>)
    ensures f.value.Float64Value? ==> r == Some((key, Float64Val(GetFloat64(flags, f.name))))
  {
    CoerceSwitch(Float64Tag, c, flags, f, key)
  }

  /**
   The type switch with the source's "float" label: a float64 flag misses
   its case and is handled like a custom type, stored as its rendering
   when no value callback is set.
   */
  function CoerceAsWritten(c: Config, flags: FlagSet, f: Flag, key: string): (r: Option<(string, Value)>)
    ensures f.value.Float64Value? && c.valueCallback.None? ==> r == Some((key, StringVal(f.text)))
  {
    CoerceSwitch(Float64TagAsWritten, c, flags, f, key)
  }

  /**
   What one visited flag contributes, with the 64-bit float case labelled
   `floatTag`: nothing, or one (key, value) entry.  An unchanged flag is
   skipped when there is no parent Koanf, or when the parent already holds
   its key; otherwise it is treated like a changed one.
   */
  function EntryWith(floatTag: string, c: Config, flags: FlagSet, f: Flag): (r: Option<(string, Value)>)
    ensures !f.changed && c.ko.None? ==> r.None?
    ensures !f.changed && c.ko.Some? && c.ko.value.Exists(KeyName(c, f)) ==> r.None?
    ensures f.changed || (c.ko.Some? && !c.ko.value.Exists(KeyName(c, f))) ==>
              r == CoerceSwitch(floatTag, c, flags, f, KeyName(c, f))
    ensures f.changed && r.None? ==> c.valueCallback.Some? && f.value.Type() !in Handled(floatTag)
  {
    var keyName := KeyName(c, f);
    if !f.changed && (if c.ko.Some? then c.ko.value.Exists(keyName) else true) then None
    else CoerceSwitch(floatTag, c, flags, f, keyName)
  }

  /** A flag's entry as the provider computes it: a changed flag of pflag's kinds always contributes. */
  function Entry(c: Config, flags: FlagSet, f: Flag): (r: Option<(string, Value)>)
    ensures f.changed && f.value.Type() in Handled(Float64Tag) ==> r.Some? && r.value.0 == KeyName(c, f)
  {
    EntryWith(Float64Tag, c, flags, f)
  }

  /** A plain map assignment of an entry, if there is one. */
  function Store(m: map<string, Value>, e: Option<(string, Value)>): (r: map<string, Value>)
    ensures e.None? ==> r == m
    ensures e.Some? ==> r.Keys == m.Keys + {e.value.0} && r[e.value.0] == e.value.1
    ensures forall k :: k in m && (e.None? || k != e.value.0) ==> k in r && r[k] == m[k]
  {
    match e
    case None => m
    case Some((k, v)) => m[k := v]
  }

  /**
   The flat map after visiting `visited` in order, reading values from
   `flags`, with the 64-bit float case labelled `floatTag`: its keys are
   exactly the keys some visited flag's entry assigns.
   */
  function VisitWith(floatTag: string, c: Config, flags: FlagSet, visited: seq<Flag>): (r: map<string, Value>)
    ensures forall k :: k in r <==>
              exists i :: 0 <= i < |visited| && EntryWith(floatTag, c, flags, visited[i]).Some? &&
                          EntryWith(floatTag, c, flags, visited[i]).value.0 == k
  {
    if visited == [] then map[]
    else
      var init := visited[..|visited| - 1];
      assert forall i :: 0 <= i < |init| ==> init[i] == visited[i];
      Store(VisitWith(floatTag, c, flags, init), EntryWith(floatTag, c, flags, visited[|visited| - 1]))
  }

  /** The flat map as the provider builds it: it holds the key of every changed flag of pflag's kinds. */
  function Visit(c: Config, flags: FlagSet, visited: seq<Flag>): (r: map<string, Value>)
    ensures forall i :: 0 <= i < |visited| && visited[i].changed && visited[i].value.Type() in Handled(Float64Tag) ==>
              KeyName(c, visited[i]) in r
  {
    VisitWith(Float64Tag, c, flags, visited)
  }

  /**
   The flat map the source as written builds, with its "float" label: it
   holds the key of every changed flag whose type the switch handles.
   */
  function VisitAsWritten(c: Config, flags: FlagSet, visited: seq<Flag>): (r: map<string, Value>)
    ensures forall i :: 0 <= i < |visited| && visited[i].changed && visited[i].value.Type() in Handled(Float64TagAsWritten) ==>
              KeyName(c, visited[i]) in r
  {
    VisitWith(Float64TagAsWritten, c, flags, visited)
  }

  /** The provider: a registry, a delimiter and the optional settings. */
  class Posflag {
    var delim: string
    var flagset: FlagSet
    var ko: Option<Koanf>
    var valueCallback: Option<ValueHook>
    var keyNameCallback: Option<RenameHook>

    function Configuration(): Config
      reads this
    {
      Config(ko, valueCallback, keyNameCallback)
    }

    /** The deprecated constructor with a parent Koanf. */
    constructor Provider(f: FlagSet, delim: string, ko: Option<Koanf>)
      ensures flagset == f && this.delim == delim
      ensures Configuration() == Config(ko, None, None)
    {
      this.flagset := f;
      this.delim := delim;
      this.ko := ko;
      this.valueCallback := None;
      this.keyNameCallback := None;
    }

    /** The deprecated constructor with a parent Koanf and a value callback. */
    constructor ProviderWithValue(f: FlagSet, delim: string, ko: Option<Koanf>, cb: Option<ValueHook>)
      ensures flagset == f && this.delim == delim
      ensures Configuration() == Config(ko, cb, None)
    {
      this.flagset := f;
      this.delim := delim;
      this.ko := ko;
      this.valueCallback := cb;
      this.keyNameCallback := None;
    }

    /** A provider with no settings, then each option applied in order. */
    constructor ProviderWithOptions(f: FlagSet, delim: string, options: seq<ProviderOption>)
      ensures flagset == f && this.delim == delim
      ensures Configuration() == ApplyAll(NoSettings, options)
    {
      this.flagset := f;
      this.delim := delim;
      this.ko := None;
      this.valueCallback := None;
      this.keyNameCallback := None;
      new;
      var i := 0;
      while i < |options|
        invariant i <= |options|
        invariant flagset == f && this.delim == delim
        invariant Configuration() == ApplyAll(NoSettings, options[..i])
      {
        Apply(options[i]);
        assert options[..i + 1][..i] == options[..i];
        i := i + 1;
      }
      assert options[..i] == options;
    }

    /** Runs one option closure: it sets the one field its kind names. */
    method Apply(o: ProviderOption)
      modifies this`ko, this`valueCallback, this`keyNameCallback
      ensures Configuration() == ApplyOption(old(Configuration()), o)
    {
      match o
      case ParentKoanf(k) => ko := k;
      case ValueCallback(cb) => valueCallback := cb;
      case RenameCallback(cb) => keyNameCallback := cb;
    }

    /**
     Visits every flag in registry order and assigns its entry, if any, into
     the flat map.  The result is the map before nesting by `delim`.
     */
    method Read() returns (mp: map<string, Value>)
      ensures mp == Visit(Configuration(), flagset, flagset)
    {
      mp := map[];
      var i := 0;
      while i < |flagset|
        invariant i <= |flagset|
        invariant mp == Visit(Configuration(), flagset, flagset[..i])
      {
        var f := flagset[i];
        match Entry(Configuration(), flagset, f) {
          case Some((key, value)) => mp := mp[key := value];
          case None =>
        }
        assert flagset[..i + 1][..i] == flagset[..i];
        i := i + 1;
      }
      assert flagset[..i] == flagset;
    }

    /** Reading raw bytes is not supported. */
    method ReadBytes() returns (data: seq<bv8>, err: Option<Error>)
      ensures data == [] && err.Some?
      ensures err == Some(NotSupported("pflag provider does not support this method"))
    {
      data := [];
      err := Some(NotSupported("pflag provider does not support this method"));
    }

    /** Watching is not supported; the callback is never called. */
    method Watch<E>(cb: (E, Option<Error>) -> ()) returns (err: Option<Error>)
      ensures err.Some?
      ensures err == Some(NotSupported("posflag provider does not support this method"))
    {
      err := Some(NotSupported("posflag provider does not support this method"));
    }
  }
}
