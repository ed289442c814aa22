/**
 Properties of the posflag provider: a reference statement of what each
 flag contributes, the last-write-wins shape of the flat map, the default
 inclusion policy over the whole registry, and the order of options.
 */
module PosflagProperties {
  import opened Wrappers
  import opened Pflag
  import opened Posflag

  /**
   A registry as pflag builds it: distinct names, and no custom Value that
   reports the Type() name of one of pflag's own kinds.
   */
  ghost predicate WellFormed(flags: FlagSet) {
    && UniqueNames(flags)
    && forall i :: 0 <= i < |flags| && flags[i].value.OtherValue? ==>
         flags[i].value.typeName !in Handled(Float64Tag)
  }

  predicate IsInteger(v: FlagValue) {
    v.IntValue? || v.Int8Value? || v.Int16Value? || v.Int32Value? || v.Int64Value?
  }

  /** The mathematical integer an integer-typed flag holds. */
  function IntegerOf(v: FlagValue): int
    requires IsInteger(v)
  {
    match v
    case IntValue(n) => n as int
    case Int8Value(n) => n as int
    case Int16Value(n) => n as int
    case Int32Value(n) => n as int
    case Int64Value(n) => n as int
  }

  /**
   The representation a flag of one of pflag's own kinds gets: every
   integer width becomes an Int64 of the same value, every other kind
   keeps its own.
   */
  function Convert(v: FlagValue): (r: Value)
    requires !v.OtherValue?
    ensures IsInteger(v) <==> r.IntVal?
    ensures IsInteger(v) ==> r.n as int == IntegerOf(v)
  {
    match v
    case IntValue(n) => IntVal(n)
    case Int8Value(n) => IntVal(n as Int64)
    case Int16Value(n) => IntVal(n as Int64)
    case Int32Value(n) => IntVal(n as Int64)
    case Int64Value(n) => IntVal(n)
    case Float32Value(x) => Float32Val(x)
    case Float64Value(x) => Float64Val(x)
    case BoolValue(b) => BoolVal(b)
    case StringSliceValue(ss) => StringsVal(ss)
    case IntSliceValue(ns) => IntsVal(ns)
  }

  /**
   What a flag should contribute, stated from the flag's own typed value:
   unchanged defaults only with a parent that lacks the key; pflag's kinds
   converted under the flag's key; other kinds through the value callback
   (an empty key drops the flag) or as their rendering.
   */
  function Expected(c: Config, f: Flag): Option<(string, Value)> {
    var key := KeyName(c, f);
    if !f.changed && (c.ko.None? || c.ko.value.Exists(key)) then None
    else if !f.value.OtherValue? then Some((key, Convert(f.value)))
    else
      match c.valueCallback
      case None => Some((key, StringVal(f.text)))
      case Some(cb) => if cb(key, f.text).0 == "" then None else Some(cb(key, f.text))
  }

  /**
   The provider's type-name switch, with values read back by raw name,
   gives every flag of a well-formed registry exactly its expected entry.
   */
  lemma EntryMatchesExpected(c: Config, flags: FlagSet, i: nat)
    requires WellFormed(flags)
    requires i < |flags|
    ensures Entry(c, flags, flags[i]) == Expected(c, flags[i])
  {
  }

  /** Integer flags of every width are stored as an Int64 holding the same number. */
  lemma IntegerWidening(c: Config, flags: FlagSet, i: nat)
    requires WellFormed(flags)
    requires i < |flags| && IsInteger(flags[i].value)
    requires flags[i].changed || (c.ko.Some? && !c.ko.value.Exists(KeyName(c, flags[i])))
    ensures Entry(c, flags, flags[i]).Some?
    ensures Entry(c, flags, flags[i]).value.0 == KeyName(c, flags[i])
    ensures Entry(c, flags, flags[i]).value.1.IntVal?
    ensures Entry(c, flags, flags[i]).value.1.n as int == IntegerOf(flags[i].value)
  {
    EntryMatchesExpected(c, flags, i);
  }

  /** Whether visiting `f` assigns the key `k`. */
  predicate Writes(c: Config, flags: FlagSet, f: Flag, k: string) {
    Entry(c, flags, f).Some? && Entry(c, flags, f).value.0 == k
  }

  /** The position of the last visited flag that assigns `k`, if any. */
  function LastWriter(c: Config, flags: FlagSet, visited: seq<Flag>, k: string): (r: Option<nat>)
    ensures r.Some? ==> r.value < |visited| && Writes(c, flags, visited[r.value], k)
    ensures r.Some? ==> forall j :: r.value < j < |visited| ==> !Writes(c, flags, visited[j], k)
    ensures r.None? ==> forall j :: 0 <= j < |visited| ==> !Writes(c, flags, visited[j], k)
  {
    if visited == [] then None
    else if Writes(c, flags, visited[|visited| - 1], k) then Some(|visited| - 1)
    else LastWriter(c, flags, visited[..|visited| - 1], k)
  }

  /** A key is in the flat map exactly when some flag assigns it, and holds the last such value. */
  lemma {:induction false} VisitLastWriteWins(c: Config, flags: FlagSet, visited: seq<Flag>, k: string)
    ensures k in Visit(c, flags, visited) <==> LastWriter(c, flags, visited, k).Some?
    ensures LastWriter(c, flags, visited, k).Some? ==>
              Visit(c, flags, visited)[k] == Entry(c, flags, visited[LastWriter(c, flags, visited, k).value]).value.1
  {
    if visited != [] {
      var init := visited[..|visited| - 1];
      VisitLastWriteWins(c, flags, init, k);
      if !Writes(c, flags, visited[|visited| - 1], k) {
        assert LastWriter(c, flags, visited, k) == LastWriter(c, flags, init, k);
        forall j | 0 <= j < |init| ensures init[j] == visited[j] { }
      }
    }
  }

  /** Last write wins: the value of a key is that of the last flag assigning it. */
  lemma ReadLastWriteWins(c: Config, flags: FlagSet, i: nat, k: string)
    requires i < |flags| && Writes(c, flags, flags[i], k)
    requires forall j :: i < j < |flags| ==> !Writes(c, flags, flags[j], k)
    ensures k in Visit(c, flags, flags)
    ensures Visit(c, flags, flags)[k] == Entry(c, flags, flags[i]).value.1
  {
    VisitLastWriteWins(c, flags, flags, k);
    var m := LastWriter(c, flags, flags, k).value;
    assert m == i by {
      if m < i { } else if m > i { }
    }
  }

  /** The keys of the flat map are exactly the keys some flag assigns. */
  lemma ReadKeys(c: Config, flags: FlagSet, k: string)
    ensures k in Visit(c, flags, flags) <==> exists i :: 0 <= i < |flags| && Writes(c, flags, flags[i], k)
  {
    VisitLastWriteWins(c, flags, flags, k);
  }

  /**
   Without a parent Koanf or a value callback, the flat map has a key
   exactly when some changed flag is named (or renamed) to it: unchanged
   defaults contribute nothing.
   */
  lemma ReadWithoutParent(c: Config, flags: FlagSet, k: string)
    requires c.ko.None? && c.valueCallback.None?
    ensures k in Visit(c, flags, flags) <==>
              exists i :: 0 <= i < |flags| && flags[i].changed && KeyName(c, flags[i]) == k
  {
    ReadKeys(c, flags, k);
    forall i | 0 <= i < |flags|
      ensures Writes(c, flags, flags[i], k) <==> flags[i].changed && KeyName(c, flags[i]) == k
    {
    }
  }

  /**
   With a parent Koanf and no value callback, a key is in the flat map
   exactly when some flag is keyed to it and is either changed or a
   default the parent does not hold.
   */
  lemma ReadWithParent(c: Config, flags: FlagSet, k: string)
    requires c.ko.Some? && c.valueCallback.None?
    ensures k in Visit(c, flags, flags) <==>
              exists i :: 0 <= i < |flags| && KeyName(c, flags[i]) == k &&
                (flags[i].changed || !c.ko.value.Exists(k))
  {
    ReadKeys(c, flags, k);
    forall i | 0 <= i < |flags|
      ensures Writes(c, flags, flags[i], k) <==>
                KeyName(c, flags[i]) == k && (flags[i].changed || !c.ko.value.Exists(k))
    {
    }
  }

  /**
   A flag of one of pflag's kinds that is changed, or a default the parent
   lacks, is in the flat map under its (possibly renamed) key with its own
   converted value, unless a later flag assigns the same key.
   */
  lemma IncludedFlagKept(c: Config, flags: FlagSet, i: nat)
    requires WellFormed(flags)
    requires i < |flags| && !flags[i].value.OtherValue?
    requires flags[i].changed || (c.ko.Some? && !c.ko.value.Exists(KeyName(c, flags[i])))
    requires forall j :: i < j < |flags| ==> !Writes(c, flags, flags[j], KeyName(c, flags[i]))
    ensures KeyName(c, flags[i]) in Visit(c, flags, flags)
    ensures Visit(c, flags, flags)[KeyName(c, flags[i])] == Convert(flags[i].value)
  {
    EntryMatchesExpected(c, flags, i);
    ReadLastWriteWins(c, flags, i, KeyName(c, flags[i]));
  }

  /** The example registry: host (unchanged string), port (changed int), tags (unchanged list). */
  function ExampleFlags(): FlagSet {
    [ Flag("host", false, OtherValue("string"), "localhost"),
      Flag("port", true, IntValue(8080), "8080"),
      Flag("tags", false, StringSliceValue(["a", "b"]), "[a,b]") ]
  }

  /** Without parent or callbacks only the changed port reaches the flat map. */
  lemma ExampleRead()
    ensures Visit(NoSettings, ExampleFlags(), ExampleFlags()) == map["port" := IntVal(8080)]
  {
    var flags := ExampleFlags();
    ExampleWellFormed();
    EntryMatchesExpected(NoSettings, flags, 0);
    EntryMatchesExpected(NoSettings, flags, 1);
    EntryMatchesExpected(NoSettings, flags, 2);
    ExampleVisitSteps(NoSettings);
  }

  /** With a parent that holds "host", the default of tags, which it lacks, is merged too. */
  lemma ExampleReadWithParent()
    ensures Visit(NoSettings.(ko := Some(Koanf(key => key == "host"))), ExampleFlags(), ExampleFlags())
            == map["port" := IntVal(8080), "tags" := StringsVal(["a", "b"])]
  {
    var c := NoSettings.(ko := Some(Koanf(key => key == "host")));
    var flags := ExampleFlags();
    ExampleWellFormed();
    EntryMatchesExpected(c, flags, 0);
    EntryMatchesExpected(c, flags, 1);
    EntryMatchesExpected(c, flags, 2);
    assert c.ko.value.Exists("host");
    assert !c.ko.value.Exists("tags");
    ExampleVisitSteps(c);
  }

  /** Visiting one more flag stores that flag's entry into the map built so far. */
  lemma VisitStep(c: Config, flags: FlagSet, visited: seq<Flag>)
    requires visited != []
    ensures Visit(c, flags, visited) ==
              Store(Visit(c, flags, visited[..|visited| - 1]), Entry(c, flags, visited[|visited| - 1]))
  {
  }

  /** The example's flat map, unfolded one flag at a time. */
  lemma ExampleVisitSteps(c: Config)
    ensures var flags := ExampleFlags();
      Visit(c, flags, flags) ==
        Store(Store(Store(map[], Entry(c, flags, flags[0])), Entry(c, flags, flags[1])), Entry(c, flags, flags[2]))
  {
    var flags := ExampleFlags();
    var p1, p2 := flags[..1], flags[..2];
    VisitStep(c, flags, p1);
    assert p1[..0] == [] && p1[0] == flags[0];
    VisitStep(c, flags, p2);
    assert p2[..1] == p1 && p2[1] == flags[1];
    VisitStep(c, flags, flags);
    assert flags[..2] == p2;
  }

  lemma ExampleWellFormed()
    ensures WellFormed(ExampleFlags())
  {
    var flags := ExampleFlags();
    assert flags[0].name[0] == 'h' && flags[1].name[0] == 'p' && flags[2].name[0] == 't';
    assert forall t :: t in Handled(Float64Tag) ==> |t| != |"string"|;
  }

  /** Which setting an option sets. */
  datatype Setting = ParentSetting | ValueSetting | RenameSetting

  function SettingOf(o: ProviderOption): Setting {
    match o
    case ParentKoanf(_) => ParentSetting
    case ValueCallback(_) => ValueSetting
    case RenameCallback(_) => RenameSetting
  }

  /** The position of the last option that sets `s`, if any. */
  function LastOfKind(options: seq<ProviderOption>, s: Setting): (r: Option<nat>)
    ensures r.Some? ==> r.value < |options| && SettingOf(options[r.value]) == s
    ensures r.Some? ==> forall j :: r.value < j < |options| ==> SettingOf(options[j]) != s
    ensures r.None? ==> forall j :: 0 <= j < |options| ==> SettingOf(options[j]) != s
  {
    if options == [] then None
    else if SettingOf(options[|options| - 1]) == s then Some(|options| - 1)
    else LastOfKind(options[..|options| - 1], s)
  }

  /**
   Options apply in order, so each setting is the one the last option of
   its kind gave, and stays as it was when no option of that kind is given.
   */
  lemma {:induction false} LaterOptionWins(c: Config, options: seq<ProviderOption>)
    ensures var last := LastOfKind(options, ParentSetting);
      ApplyAll(c, options).ko == if last.Some? then options[last.value].parent else c.ko
    ensures var last := LastOfKind(options, ValueSetting);
      ApplyAll(c, options).valueCallback == if last.Some? then options[last.value].onValue else c.valueCallback
    ensures var last := LastOfKind(options, RenameSetting);
      ApplyAll(c, options).keyNameCallback == if last.Some? then options[last.value].onRename else c.keyNameCallback
  {
    if options != [] {
      LaterOptionWins(c, options[..|options| - 1]);
    }
  }

  /** With the source's "float" label, a changed float64 flag is stored as its rendering. */
  lemma AsWrittenFloat64BecomesString()
    ensures var f := Flag("ratio", true, Float64Value(Float64(0x3FF8_0000_0000_0000)), "1.5");
      CoerceAsWritten(NoSettings, [f], f, "ratio") == Some(("ratio", StringVal("1.5")))
  {
  }

  /**
   The whole flat map differs too: the source as written stores the
   float64 flag `ratio` as the string "1.5", the corrected label as a float.
   */
  lemma ReadAsWrittenFloat64()
    ensures var f := Flag("ratio", true, Float64Value(Float64(0x3FF8_0000_0000_0000)), "1.5");
      && VisitAsWritten(NoSettings, [f], [f]) == map["ratio" := StringVal("1.5")]
      && Visit(NoSettings, [f], [f]) == map["ratio" := Float64Val(Float64(0x3FF8_0000_0000_0000))]
  {
    var f := Flag("ratio", true, Float64Value(Float64(0x3FF8_0000_0000_0000)), "1.5");
    assert [f][..0] == [];
    assert EntryWith(Float64TagAsWritten, NoSettings, [f], f) == Some(("ratio", StringVal("1.5")));
    assert Entry(NoSettings, [f], f) == Some(("ratio", Float64Val(Float64(0x3FF8_0000_0000_0000))));
  }

  /** The label only matters for flags typed "float" or "float64": elsewhere both maps agree. */
  lemma {:induction false} AsWrittenAgreesWithoutFloat64(c: Config, flags: FlagSet, visited: seq<Flag>)
    requires forall i :: 0 <= i < |visited| ==>
               visited[i].value.Type() != Float64Tag && visited[i].value.Type() != Float64TagAsWritten
    ensures VisitAsWritten(c, flags, visited) == Visit(c, flags, visited)
  {
    if visited != [] {
      var init := visited[..|visited| - 1];
      AsWrittenAgreesWithoutFloat64(c, flags, init);
      var f := visited[|visited| - 1];
      assert EntryWith(Float64TagAsWritten, c, flags, f) == Entry(c, flags, f);
    }
  }

  /** With the "float64" label, a float64 flag keeps its own 64-bit float value. */
  lemma Float64Kept(c: Config, flags: FlagSet, i: nat, key: string)
    requires WellFormed(flags)
    requires i < |flags| && flags[i].value.Float64Value?
    ensures Coerce(c, flags, flags[i], key) == Some((key, Float64Val(flags[i].value.float64)))
  {
  }
}
