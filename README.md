# posflag provider model

A Dafny model of koanf's `posflag` provider, which turns the flags of a
pflag `FlagSet` into configuration keys and values.

The provider walks the registry once, in `VisitAll` order. For each flag it
decides three things:

- **Key.** The output key is the flag's raw name, or what the rename
  callback returns for the flag.
- **Inclusion.** A changed flag always contributes. An unchanged default
  contributes only when a parent Koanf is set and does not already hold
  the key.
- **Representation.** A switch on the value's `Type()` name. All integer
  widths become an `Int64`. 32-bit floats, booleans and string and integer
  lists keep their kinds. The 64-bit float case is meant to keep its kind
  too, but the switch labels it `"float"` while pflag's float64 flags
  report `"float64"`, so as written they are handled like a custom type
  (see "## Findings"). Any other type goes through the value callback,
  which may rename the entry or drop it with an empty key; without a
  callback its string rendering is stored.

Each result is assigned into a flat map, so the last flag to write a key
wins. The provider's options set the parent Koanf and the two callbacks, in
order. `ReadBytes` and `Watch` always fail with a "not supported" error.

Files:

- `wrappers.dfy`: `Option` (Go's nil-able values) and the error type.
- `pflag.dfy`: the flag registry as a sequence of flags, lookup by name
  and the typed getters. A getter yields the zero value when it fails, as
  the provider ignores getter errors.
- `posflag.dfy`: the per-flag decision (`Entry`, `CoerceSwitch`), the
  fold over the registry (`Visit`), the options (`ApplyOption`,
  `ApplyAll`) and the class `Posflag` with its constructors, `Apply`
  (what one option closure does), `Read`, `ReadBytes` and `Watch`.
- `posflag_properties.dfy`: a reference statement of each flag's
  contribution (`Expected`), last-write-wins over the whole registry, the
  inclusion policy over the whole registry, the option order, two worked
  examples, and the float64 finding below.

Points to keep in mind when reading the model:

- The existence check asks the parent Koanf about the output key
  (`keyName`, after renaming). The typed getters look the value up by the
  flag's raw name. With distinct names that finds the visited flag itself
  (`Pflag.LookupOwn`).
- The per-flag entry and the fold take the 64-bit float label as a
  parameter (`Posflag.EntryWith`, `Posflag.VisitWith`). `Read` uses the
  corrected label `"float64"`, the type name pflag gives float64 flags.
  The source writes `"float"`; the program as written is kept as
  `Posflag.CoerceAsWritten` and `Posflag.VisitAsWritten`, and the two agree
  on every registry without float-typed flags
  (`PosflagProperties.AsWrittenAgreesWithoutFloat64`).
- `Read` returns the flat map. Nesting it by the delimiter is done by
  `maps.Unflatten`, which is not part of this model.

## Model

| member | source | states |
|---|---|---|
| `Pflag.Lookup` | providers/posflag/posflag.go:91-114 | a lookup by name finds a flag of the registry with that name, and finds nothing only when no flag has that name |
| `Pflag.LookupOwn` | providers/posflag/posflag.go:91-114 | corollary of `Lookup` by position: in a registry with distinct names, the getters' lookup by the raw `f.Name` finds the visited flag itself, whatever key it was renamed to |
| `Pflag.GetInt` | providers/posflag/posflag.go:90-92 | with distinct names, the `int` getter reads the named flag's value; it yields 0 when no flag has the name or its type differs (the error is ignored) |
| `Pflag.GetInt8` | providers/posflag/posflag.go:93-95 | as `GetInt`, for `int8` |
| `Pflag.GetInt16` | providers/posflag/posflag.go:96-98 | as `GetInt`, for `int16` |
| `Pflag.GetInt32` | providers/posflag/posflag.go:99-101 | as `GetInt`, for `int32` |
| `Pflag.GetInt64` | providers/posflag/posflag.go:102-104 | as `GetInt`, for `int64` |
| `Pflag.GetFloat32` | providers/posflag/posflag.go:105-106 | reads the named flag's 32-bit float, or the zero float on failure |
| `Pflag.GetFloat64` | providers/posflag/posflag.go:107-108 | reads the named flag's 64-bit float, or the zero float on failure |
| `Pflag.GetBool` | providers/posflag/posflag.go:109-110 | reads the named flag's boolean, or false on failure |
| `Pflag.GetStringSlice` | providers/posflag/posflag.go:111-112 | reads the named flag's string list, or the empty list on failure |
| `Pflag.GetIntSlice` | providers/posflag/posflag.go:113-114 | reads the named flag's integer list, or the empty list on failure |
| `Posflag.ApplyOption` | providers/posflag/posflag.go:148-170 | an option sets the field its kind names to its payload and leaves the other two settings as they were |
| `Posflag.ApplyAll` | providers/posflag/posflag.go:60-64 | running options in order leaves every setting that no option names as it was |
| `Posflag.KeyName` | providers/posflag/posflag.go:72-75 | the output key is the rename callback's answer for the flag when one is set, else the flag's raw name |
| `Posflag.CoerceSwitch` | providers/posflag/posflag.go:88-126 | the entry keeps the candidate key unless the type is unhandled and a value callback is set; a flag is dropped exactly when its type is unhandled, a value callback is set and it returns an empty key |
| `Posflag.EntryWith` | providers/posflag/posflag.go:72-86 | an unchanged flag adds nothing without a parent, or when the parent holds its key; otherwise it goes through the type switch under its key; a changed flag is dropped only by the value callback |
| `Posflag.Coerce` | providers/posflag/posflag.go:89-126 | `CoerceSwitch` with the corrected label `"float64"`: a float64 flag is stored under the candidate key as the 64-bit float its getter reads |
| `Posflag.CoerceAsWritten` | providers/posflag/posflag.go:89-126 | the switch with the source's `"float"` label: a float64 flag with no value callback is stored as its rendering |
| `Posflag.Entry` | providers/posflag/posflag.go:72-128 | `EntryWith` with the corrected label `"float64"`: a changed flag of pflag's own kinds always contributes, under its key |
| `Posflag.Store` | providers/posflag/posflag.go:121-128 | storing an entry sets that key to its value and leaves every other key as it was |
| `Posflag.VisitWith` | providers/posflag/posflag.go:71-129 | the fold over the visited flags: its keys are exactly the keys some visited flag's entry assigns |
| `Posflag.Visit` | providers/posflag/posflag.go:71-129 | `VisitWith` with the corrected label `"float64"`, the fold `Read` computes: the key of every changed flag of pflag's own kinds is in the map |
| `Posflag.VisitAsWritten` | providers/posflag/posflag.go:71-129 | `VisitWith` with the source's label `"float"`: the key of every changed flag whose type that switch handles is in the map |
| `Posflag.Posflag.Provider` | providers/posflag/posflag.go:31-37 | the provider holds the registry, the delimiter and the parent Koanf, with no callbacks |
| `Posflag.Posflag.ProviderWithValue` | providers/posflag/posflag.go:44-51 | as `Provider`, plus the value callback |
| `Posflag.Posflag.ProviderWithOptions` | providers/posflag/posflag.go:55-66 | the settings are those that running the options in order on empty settings gives |
| `Posflag.Posflag.Apply` | providers/posflag/posflag.go:148-170 | an option sets only the one field its kind names: the parent Koanf, the value callback or the rename callback |
| `Posflag.Posflag.Read` | providers/posflag/posflag.go:69-129 | the returned flat map is the fold of each flag's entry over the registry in visiting order |
| `Posflag.Posflag.ReadBytes` | providers/posflag/posflag.go:133-136 | returns no bytes and the "pflag provider does not support this method" error |
| `Posflag.Posflag.Watch` | providers/posflag/posflag.go:138-141 | returns the "posflag provider does not support this method" error; it has no modifies clause, so no state changes (callbacks are pure in the model, so there is no call to observe) |
| `PosflagProperties.Convert` | providers/posflag/posflag.go:90-114 | exactly the integer kinds become an `Int64`, holding the same number |
| `PosflagProperties.EntryMatchesExpected` | providers/posflag/posflag.go:72-128 | in a well-formed registry, each flag's entry is the one its own typed value calls for: inclusion policy, key from rename callback or name, converted value or value-callback result |
| `PosflagProperties.IntegerWidening` | providers/posflag/posflag.go:90-104 | an included flag of any integer width is stored under its key as an `Int64` equal to its value |
| `PosflagProperties.LastWriter` | providers/posflag/posflag.go:71-128 | finds the last visited flag that writes a key, or says that none does |
| `PosflagProperties.VisitLastWriteWins` | providers/posflag/posflag.go:71-128 | a key is in the flat map exactly when some visited flag writes it, and holds the value of the last one that does |
| `PosflagProperties.ReadLastWriteWins` | providers/posflag/posflag.go:71-128 | if a flag writes a key and no later flag does, the flat map holds that flag's value for the key |
| `PosflagProperties.ReadKeys` | providers/posflag/posflag.go:71-128 | the keys of the flat map are exactly the keys written by some flag |
| `PosflagProperties.ReadWithoutParent` | providers/posflag/posflag.go:72-86 | with no parent and no value callback, the keys are exactly the keys of the changed flags: unchanged defaults add nothing |
| `PosflagProperties.ReadWithParent` | providers/posflag/posflag.go:72-86 | with a parent and no value callback, a key is present exactly when some flag with that key is changed or is a default the parent does not hold |
| `PosflagProperties.IncludedFlagKept` | providers/posflag/posflag.go:72-128 | a changed flag of one of pflag's own kinds (not a custom Value such as `string`), or such a default the parent lacks, is stored under its (renamed) key with its own converted value unless a later flag writes that key |
| `PosflagProperties.ExampleRead` | providers/posflag/posflag.go:69-129 | host (unchanged), port 8080 (changed) and tags (unchanged), with no parent, give exactly `{port: 8080}` |
| `PosflagProperties.ExampleReadWithParent` | providers/posflag/posflag.go:69-129 | the same flags with a parent that holds only `host` give `{port: 8080, tags: [a, b]}` |
| `PosflagProperties.LastOfKind` | providers/posflag/posflag.go:55-65 | finds the last option of a given kind, or says that there is none |
| `PosflagProperties.LaterOptionWins` | providers/posflag/posflag.go:55-65 | each setting is the one given by the last option of its kind, or is unchanged if no option of that kind is given |
| `PosflagProperties.AsWrittenFloat64BecomesString` | providers/posflag/posflag.go:107-108 | with the source's `"float"` label, a changed float64 flag is stored as its rendering `"1.5"`, not as a float |
| `PosflagProperties.ReadAsWrittenFloat64` | providers/posflag/posflag.go:69-129 | for a changed float64 flag `ratio` = 1.5, the flat map as written is `{ratio: "1.5"}` and with the corrected label `{ratio: 1.5}` |
| `PosflagProperties.AsWrittenAgreesWithoutFloat64` | providers/posflag/posflag.go:89-128 | when no visited flag is typed `"float"` or `"float64"`, the flat maps as written and corrected are equal |
| `PosflagProperties.Float64Kept` | providers/posflag/posflag.go:107-108 | with the `"float64"` label, a float64 flag keeps its own 64-bit float value |

## Left out

- `maps.Unflatten` (nesting by the delimiter) is not part of this model. `Read` returns the flat map, and the delimiter is only stored.
- Posflag.Posflag.Read: uses the corrected `"float64"` label for the 64-bit float case, not the source's `"float"`, so for float64 flags it does not state what the source as written stores; that is `Posflag.VisitAsWritten` (see "## Findings").
- The error result of `Read` is always nil in the source; the model returns just the map.
- The pflag library is modelled only as far as the provider uses it. Parsing the command line and the internals of `VisitAll` are left out, and the registry is a given sequence in visiting order.
- pflag's rendering of values (`Value.String()`) is not modelled. Each flag carries its rendering as given text.
- A custom Value whose `Type()` reports one of pflag's own names (for example `"int"`): the model's getter yields the zero value, where pflag would parse the rendering. The properties assume a well-formed registry (`PosflagProperties.WellFormed`) with no such flag.
- Go's `int` and `[]int` are taken as 64 bits wide.
- Floats are opaque bit patterns; they are passed through and never computed with.
- The parent Koanf is reduced to its `Exists` predicate. Anything else a value callback may return, beyond the listed kinds, is a `CustomVal` token.
- Flags are reduced to name, changed bit, value and rendering. Shorthand, usage and the other pflag fields are not seen by the rename callback.
- Callbacks are pure functions. Side effects of Go callbacks are not modelled.
- Go `nil` versus an empty option list is not distinguished: both apply no options.

## Findings

| source | as written | input that shows it | evidently intended | confidence | as-written member | corrected member |
|---|---|---|---|---|---|---|
| providers/posflag/posflag.go:107-108 | the 64-bit float case is labelled `"float"`, but pflag's float64 flags report the type `"float64"`, so they fall to the default case | a changed float64 flag `ratio` set to 1.5, no value callback: stored as the string `"1.5"` (or handed to the value callback) | label the case `"float64"` so the value is stored as a 64-bit float | medium: depends on pflag's type name, which is outside this model; not executed | `PosflagProperties.ReadAsWrittenFloat64` (on `Posflag.VisitAsWritten`), `PosflagProperties.AsWrittenFloat64BecomesString` (on `Posflag.CoerceAsWritten`) | `Posflag.Coerce`, with `PosflagProperties.Float64Kept` |
