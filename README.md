# Pry::Config in Dafny

A model of `Pry::Config` (lib/pry/config.rb), the configuration store of the
Pry REPL, with proofs about it. The store keeps a table `@lookup` seeded from
`DEFAULT_STATE` and overlaid with the caller's options. It answers `[]` and
`[]=` on that table and sends any unknown name to `method_missing`. At
construction it bootstraps three sub-bags (`gist`, `history` and `ls`).

`attr_accessor *DEFAULT_STATE.keys` also gives the class a reader and a writer
for every option. These use instance variables, a second store that never
touches the table. The model keeps both stores apart.

## Layout

- `wrappers.dfy` (`Wrappers`): `Option` and `Result`.
- `names.dfy` (`Names`): Ruby symbols.
  - The 32 option names form the enumeration `Attribute`.
  - Every other name is an `Identifier`.
  - A writer name `x=` is `Assign(x)`.
- `values.dfy` (`Values`): the values the store holds, and Ruby truthiness.
  - Default procs are tokens, as are `proc(&:pretty_inspect)` and the output of `Pry::Hooks.from_hash`.
  - An OpenStruct is `Bag`, a map from field names to values.
  - `NoMethodError`, `NameError` and `ArgumentError` are the errors.
- `defaults.dfy` (`Defaults`): `DEFAULT_STATE` and the 18-entry colour table of `configure_ls`.
- `store.dfy` (`Store`): each operation as a pure function from a `ConfigState` to its result and new state.
  - A `ConfigState` holds the table, the instance variables and a count of warnings.
  - The instance variables are the record `Ivars`, one field per option; `Ivar` reads one and `WithIvar` assigns one.
  - The functions cover dispatch (`Send`), `method_missing`, `hooks=`, `merge!`, the seed, the three bootstrap routines and `new`.
- `properties.dfy` (`StoreProperties`): lemmas about single calls.
- `construction.dfy` (`Construction`): lemmas about each bootstrap routine and about `new`.
- `config.dfy` (`PryConfig`): the class `Config`.
  - It has the field `lookup`, one field per option and a ghost warning counter.
  - Its methods change those fields step by step, following the Ruby code.
  - Each method is proved to leave exactly the state that the matching `Store` function describes.

Behaviour the model keeps:

- **Construction raises unless `:history` is among the options.**
  - `self.history ||= …` first reads `history` through `method_missing`, and `super` raises NoMethodError.
  - `Construction.ConstructOutcome` gives the exact condition for success.
  - With `:gist=` among the options but not `:gist`, the receiver-less `gist` on line 118 raises NameError instead.
- **`should_load_rc` is two things.** The table's entry keeps whatever the options or `DEFAULT_STATE` gave it. The reader returns the instance variable instead:
  - nil after a successful path lookup;
  - false when no path was found;
  - during construction, only `configure_history` sets it.
- **`ls` has 18 entries**, and there are 32 options.
- **The sub-bags are OpenStructs**, so any field can be read or set on them; the model does not use fixed records.
- **Writer names can be shadowed.** A table that already holds the writer name itself (`:gist=`, `:history=`, `:ls=`) turns the bootstrap write into a read, and nothing is written.
- **Values are stored as given.** Default procs are never evaluated.

Inputs taken as parameters:
- `home` stands for the result of `File.expand_path("~/.pry_history") rescue nil`;
- `warn` is counted, not printed;
- `Pry::Hooks.from_hash` is a token built from the Hash.

## Model

| member | source | states |
|---|---|---|
| `Names.NoNameEndsInAssign` | lib/pry/config.rb:4-35 | No option name ends in `=`, so an option name is never a writer name |
| `Names.OptionNamesAreNames` | lib/pry/config.rb:43 | Every option's text is one of the option names, so no other identifier has that text |
| `Names.NameInjective` | lib/pry/config.rb:4-35 | No two options have the same name |
| `Names.TextInjective` | lib/pry/config.rb:64-73 | Two symbols with the same text are the same symbol: an option name, another identifier and a writer name never collide, so each symbol has one representation |
| `Names.Text` | lib/pry/config.rb:67-68 | `name.to_s`; its properties are `Names.SetterText` and `Names.TextInjective` |
| `Names.SetterText` | lib/pry/config.rb:67-68 | A symbol's text ends in `=` exactly when it is a writer name; dropping the last character gives the base name |
| `Values.GetField` | lib/pry/config.rb:123-126 | Reading an OpenStruct field succeeds exactly on an OpenStruct, gives the stored value for a field that is set and nil for one never set, and otherwise raises NoMethodError for the field |
| `Values.SetField` | lib/pry/config.rb:123-129 | Setting a field succeeds exactly on an OpenStruct; otherwise it raises NoMethodError for the writer name |
| `Values.FieldRoundTrip` | lib/pry/config.rb:123-129 | After a field is set, reading it gives the value and every other field reads as before |
| `Values.PathValue` | lib/pry/config.rb:125 | The stored path is nil exactly when the lookup of the path failed, and otherwise the path found |
| `Defaults.EveryAttribute` | lib/pry/config.rb:3-42 | Every option is a key of `DEFAULT_STATE` |
| `Defaults.DefaultStateShape` | lib/pry/config.rb:3-42 | `DEFAULT_STATE` has exactly the option names as keys, each bound to its own unevaluated default proc |
| `Store.FreshIvarsAreNil` | lib/pry/config.rb:43 | On a new object, every accessor's instance variable reads nil |
| `Store.WithIvarReadsBack` | lib/pry/config.rb:43 | After `@a = v`, the reader of `a` gives `v` |
| `Store.WithIvarFrame` | lib/pry/config.rb:43 | After `@a = v`, the reader of every other option gives what it gave before |
| `Store.ReadIvar` | lib/pry/config.rb:43 | A generated reader: `@a`, or ArgumentError when given arguments; stated by `StoreProperties.ReaderIgnoresTable` and `StoreProperties.ReaderTakesNoArguments` |
| `Store.WriteIvar` | lib/pry/config.rb:43 | A generated writer: sets `@a` and returns the value; stated by `StoreProperties.WriterLeavesTable` |
| `Store.Index` | lib/pry/config.rb:56-58 | `cfg[key]`: the stored value, or nil for a key never stored; read-back and frame are `StoreProperties.IndexAfterStore` |
| `Store.MethodMissing` | lib/pry/config.rb:64-73 | The three branches of `method_missing`; what they promise is `StoreProperties.MethodMissingOutcome` and the `Missing*` lemmas |
| `Store.BareRead` | lib/pry/config.rb:118-129 | A receiver-less read gives what `method_missing` gives when the name is in the table and raises NameError otherwise; it changes nothing |
| `Store.SetHooks` | lib/pry/config.rb:81-88 | `hooks=`; its effect is `StoreProperties.HooksWriterShim` |
| `Store.Send` | lib/pry/config.rb:43-88 | How a call by name is dispatched: generated reader or writer, `quiet?`, `hooks=`, or `method_missing`; the `StoreProperties` lemmas state each route |
| `Store.UpdateField` | lib/pry/config.rb:118-129 | `bag.field = v` on a receiver-less bag; its effect is `Construction.UpdateFieldStep` |
| `Store.ConfigureGist` | lib/pry/config.rb:115-119 | `configure_gist`; its effect is `Construction.GistStep` |
| `Store.ConfigureHistory` | lib/pry/config.rb:121-131 | `configure_history`; its effect is `Construction.HistoryStep` |
| `Store.FillHistory` | lib/pry/config.rb:123-130 | Lines 123-130 of `configure_history`; their effect is `Construction.FillHistoryStep` |
| `Store.EnableHistory` | lib/pry/config.rb:123-125 | The two flags and the path; their effect is `Construction.EnableHistoryStep` |
| `Store.DisableHistory` | lib/pry/config.rb:127-129 | The branch taken without a path; its effect is `Construction.DisableHistoryStep` |
| `Store.ConfigureLs` | lib/pry/config.rb:91-113 | `configure_ls`; its effect is `Construction.LsStep` |
| `Store.Construct` | lib/pry/config.rb:48-54 | `Pry::Config.new(options)`; when it succeeds and what it builds is `Construction.ConstructOutcome` |
| `Store.Merge` | lib/pry/config.rb:75-77 | The merged table has the keys of both sides; the other side's value wins on a collision, and otherwise the receiver's is kept |
| `Store.Seed` | lib/pry/config.rb:49-50 | The seeded table holds every option name and every key of the options. An option's value wins over the default, an option name not given keeps its default proc, and there are no other keys |
| `StoreProperties.AttributeNamesAreNotMethods` | lib/pry/config.rb:43-45 | An option's reader or writer name is never `lookup`, `[]`, `[]=` or `merge!` |
| `StoreProperties.ReaderIgnoresTable` | lib/pry/config.rb:43 | An option's reader returns the instance variable whatever the table holds, and changes nothing |
| `StoreProperties.ReaderTakesNoArguments` | lib/pry/config.rb:43 | A reader given arguments raises ArgumentError and changes nothing |
| `StoreProperties.QuietAliasReadsQuiet` | lib/pry/config.rb:45 | `quiet?` behaves exactly like `quiet` |
| `StoreProperties.WriterLeavesTable` | lib/pry/config.rb:43 | An option writer other than `hooks=` sets only its instance variable: the table and the warnings are unchanged, `cfg[:a]` reads as before, and the reader gives the new value |
| `StoreProperties.WriterTakesOneArgument` | lib/pry/config.rb:43 | A writer given other than one argument raises ArgumentError and changes nothing |
| `StoreProperties.FreshReaderIsNil` | lib/pry/config.rb:43-50 | In a freshly seeded store, `cfg[:a]` gives the option or the default proc, while the reader `cfg.a` gives nil |
| `StoreProperties.MissingReadsTable` | lib/pry/config.rb:65-66 | A name that reaches `method_missing` and is in the table returns the stored value unevaluated, and the state is unchanged |
| `StoreProperties.MissingWritesTable` | lib/pry/config.rb:67-69 | A writer name not in the table stores the first argument (nil if none) under the base name and returns it; only that key changes |
| `StoreProperties.MissingRaises` | lib/pry/config.rb:70-71 | Any other name not in the table raises NoMethodError for that name and changes nothing |
| `StoreProperties.MethodMissingOutcome` | lib/pry/config.rb:64-73 | `method_missing` raises exactly when the name is neither in the table nor a writer name, and changes the state only in the write branch |
| `StoreProperties.WriteThenReadThroughTable` | lib/pry/config.rb:64-73 | For a name the class does not define, and when the table does not hold `x=`, `cfg.x = v` then `cfg.x` and `cfg[:x]` both give `v` |
| `StoreProperties.StoredWriterNameShadowsWrite` | lib/pry/config.rb:65-67 | When the table holds the writer name itself, a call of `x=` by name returns that entry and writes nothing |
| `StoreProperties.HooksWriterShim` | lib/pry/config.rb:81-88 | A Hash becomes a hooks object with exactly one warning; anything else is stored as given with no warning. Only `@hooks` changes, and the reader then returns the stored object, never the raw Hash |
| `StoreProperties.IndexAfterStore` | lib/pry/config.rb:56-62 | After `cfg[k] = v`, `cfg[k]` gives `v` and other keys read as before and none is lost; a key never stored reads nil |
| `StoreProperties.KnownKeysStay` | lib/pry/config.rb:43-88 | No call by name removes an option name from the table |
| `Construction.BagKeysAreMissing` | lib/pry/config.rb:93-129 | The bag names `gist`, `history` and `ls` and their field names are distinct, and their readers and writers reach `method_missing` |
| `Construction.BootstrapSendsResolve` | lib/pry/config.rb:93-127 | Each call the bootstrap routines make resolves as follows: the bag readers and writers to `method_missing`, and `self.should_load_rc =` to the generated writer |
| `Construction.UpdateFieldStep` | lib/pry/config.rb:118-129 | `bag.field = v` raises NameError for the bag when the bag is not in the table, fails when the bag is not an OpenStruct, and otherwise changes exactly that one field |
| `Construction.GistStep` | lib/pry/config.rb:115-119 | `configure_gist` succeeds exactly when `gist=` is absent or `gist` is an OpenStruct, and then stores `inspecter` in it and changes nothing else; with `gist=` but no `gist` in the table it raises NameError |
| `Construction.ShadowedGistRaises` | lib/pry/config.rb:117-118 | With `:gist=` among the options but not `:gist`, `new` raises NameError for `gist` |
| `Construction.EnableHistoryStep` | lib/pry/config.rb:123-125 | On an OpenStruct `history`, the two flags become true and the path is stored |
| `Construction.DisableHistoryStep` | lib/pry/config.rb:127-129 | On an OpenStruct `history`, `@should_load_rc` and both flags become false |
| `Construction.FillHistoryStep` | lib/pry/config.rb:123-130 | On an OpenStruct `history`, the flags are on exactly when a path was found and the path is stored; `@should_load_rc` becomes false exactly when there is no path |
| `Construction.HistoryStep` | lib/pry/config.rb:121-131 | `configure_history` raises NoMethodError when `history` is absent. It succeeds exactly when `history` is an OpenStruct, or is falsy and not shadowed by `history=`, and changes only `history` and possibly `@should_load_rc` |
| `Construction.LsStep` | lib/pry/config.rb:91-113 | `configure_ls` stores the 18-entry colour table unless `ls=` shadows the write, and changes nothing else |
| `Construction.SeedOnBagKeys` | lib/pry/config.rb:49-50 | The seed agrees with the options on every key that is not an option name |
| `Construction.SeedGist` | lib/pry/config.rb:49-51 | `gist` can be configured on the seed exactly when it can be on the options, and from the same OpenStruct |
| `Construction.SeedHistory` | lib/pry/config.rb:49-53 | Likewise for `history` and `ls=` once `gist` is written |
| `Construction.BuiltTable` | lib/pry/config.rb:48-54 | The table a successful `new` leaves, in closed form: the seed with `gist`, `history` and (unless shadowed) `ls` written; `Construction.ConstructOutcome` ties it to `Store.Construct` |
| `Construction.BuiltIvars` | lib/pry/config.rb:43-54 | The instance variables a successful `new` leaves: all nil, except `@should_load_rc`, which is false when no path was found |
| `Construction.ConstructOutcome` | lib/pry/config.rb:48-54 | `new(options)` succeeds exactly when `gist` and `history` can be configured from the options, and then leaves exactly `BuiltTable`, `BuiltIvars` and no warning |
| `Construction.HistoryFieldsRead` | lib/pry/config.rb:123-130 | The history bag's flags read as "a path was found", and its file reads as the path |
| `Construction.ConstructFailsWithoutHistory` | lib/pry/config.rb:122 | Without `:history` in the options `new` raises, with NoMethodError for `history` whenever `gist` could be configured |
| `Construction.DefaultConstructionRaises` | lib/pry/config.rb:48-54 | `Pry::Config.new` with no options raises NoMethodError for `history` |
| `Construction.NilHistorySuffices` | lib/pry/config.rb:122 | With only `history: nil`, construction succeeds and `history` is a new OpenStruct holding just the three fields |
| `Construction.BuiltHistory` | lib/pry/config.rb:121-131 | After `new`, `history` is an OpenStruct whose two flags are true exactly when a path was found and whose file is the path, or nil |
| `Construction.BuiltShouldLoadRc` | lib/pry/config.rb:127 | After `new`, `@should_load_rc` is false exactly when no path was found and nil otherwise |
| `Construction.BuiltKeepsOptionEntries` | lib/pry/config.rb:51-53 | The bootstrap routines leave every option name's table entry as the seed had it; in particular `self.should_load_rc = false` does not reach `cfg[:should_load_rc]` |
| `Construction.BuiltHasOptionKeys` | lib/pry/config.rb:49-53 | After `new`, every option name is a key of the table, even one given as nil |
| `Construction.SeedOptionEntry` | lib/pry/config.rb:49-50 | In the seeded table, `cfg[:a]` is the option when one was given and the unevaluated default proc otherwise |
| `Construction.BuiltGistAndLs` | lib/pry/config.rb:91-119 | After `new`, `gist.inspecter` is the pretty-inspect proc, `gist` holds only that field unless `gist=` shadowed the write, and `ls` is the colour table unless `ls=` shadowed the write |
| `Construction.BuiltOptions` | lib/pry/config.rb:49-50 | After `new`, `cfg[:a]` gives the option when one was given and the unevaluated default proc otherwise |
| `Construction.BuiltReaders` | lib/pry/config.rb:43 | After `new`, every option reader gives nil, except `should_load_rc`, which gives false when no path was found |
| `PryConfig.Config.Attr` | lib/pry/config.rb:43 | The generated reader returns the option's instance variable |
| `PryConfig.Config.Index` | lib/pry/config.rb:56-58 | `cfg[key]` is `Store.Index` of the object's table |
| `PryConfig.Config.Seeded` | lib/pry/config.rb:49-50 | A new object holds the seeded table, no instance variable set, and no warning |
| `PryConfig.Config.New` | lib/pry/config.rb:48-54 | `new` fails exactly when `Construct` does, with the same error; when it succeeds it returns a fresh object whose state is the one `Construct` gives |
| `PryConfig.Config.SetIndex` | lib/pry/config.rb:60-62 | `cfg[key] = v` changes only that key, which then reads `v` |
| `PryConfig.Config.MethodMissing` | lib/pry/config.rb:64-73 | Leaves exactly the result and state of `Store.MethodMissing` |
| `PryConfig.Config.MergeBang` | lib/pry/config.rb:75-77 | Returns a table overlaid with the other store's `lookup` or with the Hash, and changes no object (it modifies nothing) |
| `PryConfig.Config.SetHooks` | lib/pry/config.rb:81-88 | Leaves exactly the result and state of `Store.SetHooks` |
| `PryConfig.Config.Send` | lib/pry/config.rb:43-88 | Dispatches a call as Ruby does, leaving exactly the result and state of `Store.Send` |
| `PryConfig.Config.BareRead` | lib/pry/config.rb:118-129 | A receiver-less read of the object's table gives exactly `Store.BareRead` |
| `PryConfig.Config.UpdateField` | lib/pry/config.rb:118-129 | Ends in the state `Store.UpdateField` gives, or with its error |
| `PryConfig.Config.ConfigureGist` | lib/pry/config.rb:115-119 | Ends in the state `Store.ConfigureGist` gives, or with its error |
| `PryConfig.Config.ConfigureHistory` | lib/pry/config.rb:121-131 | Ends in the state `Store.ConfigureHistory` gives, or with its error |
| `PryConfig.Config.FillHistory` | lib/pry/config.rb:123-130 | Ends in the state `Store.FillHistory` gives, or with its error |
| `PryConfig.Config.EnableHistory` | lib/pry/config.rb:123-125 | Ends in the state `Store.EnableHistory` gives, or with its error |
| `PryConfig.Config.DisableHistory` | lib/pry/config.rb:127-129 | Ends in the state `Store.DisableHistory` gives, or with its error |
| `PryConfig.Config.ConfigureLs` | lib/pry/config.rb:91-113 | Ends in the state `Store.ConfigureLs` gives |
| `PryConfig.Config.SetIvar` | lib/pry/config.rb:43 | `@a = v` changes exactly that instance variable; the table and the warnings are unchanged |

## Left out

- The default procs are never evaluated: the store never calls them. Their contents are out of scope: `Readline`, `$stdout`, the `Pry::*` constants, and the Bond and editline checks.
- `File.expand_path("~/.pry_history") rescue nil` depends on the environment, so its result is the `home` parameter.
- `warn` is output, so it is a ghost count of warnings.
- `Pry::Hooks.from_hash` is a foreign conversion, so its result is a token built from the Hash.
- A caller's own objects are modelled as answering none of the messages the store sends (`Opaque`). In Ruby, an object with `inspecter=`, or with `should_save=`, `should_load=`, `file=` and `file` (a Struct, say, or another `Pry::Config`), can stand in for an OpenStruct as `gist` or `history`, and the bootstrap routines then succeed where the model raises. The "exactly when" of `Construction.GistStep`, `Construction.HistoryStep` and `Construction.ConstructOutcome` holds for the values the model has.
- Table keys are symbols only. `[]`, `[]=`, `merge!` and the options Hash accept any object as a key, and a non-symbol key such as the String `"history"` is a key of its own. That is why `Pry::Config.new("history" => nil)` still raises, but the model cannot express such a key.
- OpenStruct internals are out of scope: a bag is a value, a map written back into the table after each change. This does not capture two references sharing one OpenStruct, nor an OpenStruct changed behind the store's back.
- Methods an object inherits from `Object` (`inspect`, `display`, `method`, …) are not modelled; a send of such a name is treated as reaching `method_missing`. A send of `method_missing` by name is not modelled either.
- Blocks passed to `method_missing` are ignored, as the source ignores them.
- The ArgumentError messages are reduced to the numbers of arguments given and expected.
- Only two kinds of overlay are modelled for `merge!`: another store and a plain Hash. Any other object that responds to `lookup` is left out.
- `attr_reader :lookup`, `[]`, `[]=` and `merge!` have members of their own (`Config.lookup`, `Index`, `SetIndex`, `MergeBang`) rather than entries in `Send`, which requires that it is not given their names.
- `DEFAULT_STATE` is frozen and only `dup`'d; under value semantics it cannot change, so no lemma states that.
- An exception raised during construction leaves a partly configured object behind. That object is unreachable, so its state is not modelled.
