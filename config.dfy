/**
 * The Pry::Config object itself (lib/pry/config.rb): the table `@lookup`,
 * the instance variables the accessors generated by `attr_accessor` use, and
 * the methods that change them.  Every method is proved to leave the state
 * the matching function of the Store module describes.
 */
module PryConfig {
  import opened Wrappers
  import opened Names
  import opened Values
  import opened Defaults
  import opened Store

  /** The argument of `merge!`: another store, which answers `lookup`, or a plain Hash. */
  datatype Overlay = ConfigOverlay(config: Config) | HashOverlay(entries: map<Key, Value>)

  class Config {
    /** `@lookup`: the table of options and everything `method_missing` stores. */
    var lookup: map<Key, Value>

    /** The instance variables `attr_accessor *DEFAULT_STATE.keys` reads and writes, one per option. */
    var input: Value
    var output: Value
    var commands: Value
    var promptName: Value
    var prompt: Value
    var promptSafeObjects: Value
    var print_: Value
    var quiet: Value
    var exceptionHandler: Value
    var exceptionWhitelist: Value
    var hooks: Value
    var pager: Value
    var system: Value
    var color: Value
    var defaultWindowSize: Value
    var editor: Value
    var shouldLoadRc: Value
    var shouldLoadLocalRc: Value
    var shouldTrapInterrupts: Value
    var disableAutoReload: Value
    var commandPrefix: Value
    var autoIndent: Value
    var correctIndent: Value
    var collisionWarning: Value
    var outputPrefix: Value
    var requires_: Value
    var shouldLoadRequires: Value
    var shouldLoadPlugins: Value
    var controlDHandler: Value
    var memorySize: Value
    var extraStickyLocals: Value
    var completer: Value

    /** How many deprecation warnings `hooks=` has printed. */
    ghost var warnings: nat

    /** The instance variables, by option. */
    ghost function IvarValues(): Ivars
      reads this
    {
      Ivars(
        input, output, commands, promptName,
        prompt, promptSafeObjects, print_, quiet,
        exceptionHandler, exceptionWhitelist, hooks, pager,
        system, color, defaultWindowSize, editor,
        shouldLoadRc, shouldLoadLocalRc, shouldTrapInterrupts, disableAutoReload,
        commandPrefix, autoIndent, correctIndent, collisionWarning,
        outputPrefix, requires_, shouldLoadRequires, shouldLoadPlugins,
        controlDHandler, memorySize, extraStickyLocals, completer)
    }

    ghost function State(): ConfigState
      reads this
    {
      ConfigState(lookup, IvarValues(), warnings)
    }

    /** The reader `attr_accessor` generated for `a`: the instance variable. */
    function Attr(a: Attribute): (v: Value)
      reads this
      ensures v == Ivar(IvarValues(), a)
    {
      match a
      case Input => input
      case Output => output
      case Commands => commands
      case PromptName => promptName
      case Prompt => prompt
      case PromptSafeObjects => promptSafeObjects
      case Print => print_
      case Quiet => quiet
      case ExceptionHandler => exceptionHandler
      case ExceptionWhitelist => exceptionWhitelist
      case Hooks => hooks
      case Pager => pager
      case System => system
      case Color => color
      case DefaultWindowSize => defaultWindowSize
      case Editor => editor
      case ShouldLoadRc => shouldLoadRc
      case ShouldLoadLocalRc => shouldLoadLocalRc
      case ShouldTrapInterrupts => shouldTrapInterrupts
      case DisableAutoReload => disableAutoReload
      case CommandPrefix => commandPrefix
      case AutoIndent => autoIndent
      case CorrectIndent => correctIndent
      case CollisionWarning => collisionWarning
      case OutputPrefix => outputPrefix
      case Requires => requires_
      case ShouldLoadRequires => shouldLoadRequires
      case ShouldLoadPlugins => shouldLoadPlugins
      case ControlDHandler => controlDHandler
      case MemorySize => memorySize
      case ExtraStickyLocals => extraStickyLocals
      case Completer => completer
    }

    
    /** Lines 49-50: `@lookup` is a copy of DEFAULT_STATE with the options merged in; no instance variable is set. */
    constructor Seeded(options: map<Key, Value>)
      ensures State() == ConfigState(Seed(options), FreshIvars, 0)
    {
      lookup := DefaultState;
      input := Nil;
      output := Nil;
      commands := Nil;
      promptName := Nil;
      prompt := Nil;
      promptSafeObjects := Nil;
      print_ := Nil;
      quiet := Nil;
      exceptionHandler := Nil;
      exceptionWhitelist := Nil;
      hooks := Nil;
      pager := Nil;
      system := Nil;
      color := Nil;
      defaultWindowSize := Nil;
      editor := Nil;
      shouldLoadRc := Nil;
      shouldLoadLocalRc := Nil;
      shouldTrapInterrupts := Nil;
      disableAutoReload := Nil;
      commandPrefix := Nil;
      autoIndent := Nil;
      correctIndent := Nil;
      collisionWarning := Nil;
      outputPrefix := Nil;
      requires_ := Nil;
      shouldLoadRequires := Nil;
      shouldLoadPlugins := Nil;
      controlDHandler := Nil;
      memorySize := Nil;
      extraStickyLocals := Nil;
      completer := Nil;
      warnings := 0;
      new;
      lookup := lookup + options;
    }

    /**
     * `Pry::Config.new(options)` (lib/pry/config.rb:48-54): the seeded store
     * after `configure_gist`, `configure_history` and `configure_ls`, or the
     * error the first failing routine raises.
     */
    static method New(options: map<Key, Value>, home: Option<string>) returns (r: Result<Config, Error>)
      ensures r.Ok? <==> Construct(options, home).Ok?
      ensures r.Ok? ==> fresh(r.value) && r.value.State() == Construct(options, home).value
      ensures r.Err? ==> r.error == Construct(options, home).error
    {
      var c := new Config.Seeded(options);
      var e := c.ConfigureGist();
      if e.Some? {
        return Err(e.value);
      }
      e := c.ConfigureHistory(home);
      if e.Some? {
        return Err(e.value);
      }
      c.ConfigureLs();
      return Ok(c);
    }

    /** `cfg[key]` (lib/pry/config.rb:56-58). */
    function Index(key: Key): Value
      reads this
    {
      Store.Index(lookup, key)
    }

    /** `cfg[key] = v` (lib/pry/config.rb:60-62): only that key changes. */
    method SetIndex(key: Key, v: Value)
      modifies this`lookup
      ensures lookup == old(lookup)[key := v]
      ensures Index(key) == v && forall k :: k != key ==> Index(k) == old(Index(k))
    {
      lookup := lookup[key := v];
    }

    /** `method_missing(name, *args)` (lib/pry/config.rb:64-73). */
    method MethodMissing(name: Key, args: seq<Value>) returns (r: Outcome<Value>)
      modifies this`lookup
      ensures Step(r, State()) == Store.MethodMissing(old(State()), name, args)
    {
      if name in lookup {
        r := Ok(lookup[name]);
      } else if name.Assign? {
        var v := if |args| == 0 then Nil else args[0];
        lookup := lookup[name.base := v];
        r := Ok(v);
      } else {
        r := Err(NoMethodError(name));
      }
    }

    /** `merge!(other)` (lib/pry/config.rb:75-77): the overlaid table; the receiver is not changed. */
    method MergeBang(other: Overlay) returns (r: map<Key, Value>)
      ensures r == Merge(lookup, if other.ConfigOverlay? then other.config.lookup else other.entries)
    {
      if other.ConfigOverlay? {
        r := lookup + other.config.lookup;
      } else {
        r := lookup + other.entries;
      }
    }

    /** `hooks=(v)` (lib/pry/config.rb:81-88). */
    method SetHooks(v: Value) returns (r: Value)
      modifies this
      ensures Step(Ok(r), State()) == Store.SetHooks(old(State()), v)
    {
      if v.Hash? {
        warnings := warnings + 1;
        r := HooksFromHash(v.entries);
      } else {
        r := v;
      }
      SetIvar(Hooks, r);
    }

    /**
     * Sending `name(*args)`: the generated readers and writers, `quiet?` and
     * `hooks=` are methods of the class; every other name reaches
     * `method_missing`.
     */
    method Send(name: Key, args: seq<Value>) returns (r: Outcome<Value>)
      requires !IsOwnMethod(name)
      modifies this
      ensures Step(r, State()) == Store.Send(old(State()), name, args)
    {
      match name
      case Known(a) =>
        r := if |args| == 0 then Ok(Attr(a)) else Err(ArgumentError(|args|, 0));
      case Assign(Known(a)) =>
        if |args| != 1 {
          r := Err(ArgumentError(|args|, 1));
        } else if a == Hooks {
          var v := SetHooks(args[0]);
          r := Ok(v);
        } else {
          SetIvar(a, args[0]);
          r := Ok(args[0]);
        }
      case Other(_) =>
        if name == QuietAlias {
          r := if |args| == 0 then Ok(Attr(Quiet)) else Err(ArgumentError(|args|, 0));
        } else {
          r := MethodMissing(name, args);
        }
      case Assign(_) =>
        r := MethodMissing(name, args);
    }

    /** Whether a bootstrap step ended where the matching function says: its state, or its error. */
    ghost predicate Reached(spec: Outcome<ConfigState>, e: Option<Error>)
      reads this
    {
      if spec.Ok? then e.None? && State() == spec.value else e == Some(spec.error)
    }

    /** `bag.field = v` in the bootstrap routines. */
    method UpdateField(bag: Key, field: Identifier, v: Value) returns (e: Option<Error>)
      modifies this`lookup
      ensures Reached(Store.UpdateField(old(State()), bag, field, v), e)
    {
      var read := BareRead(bag);
      if read.Err? {
        return Some(read.error);
      }
      var updated := SetField(read.value, field, v);
      if updated.Err? {
        return Some(updated.error);
      }
      lookup := lookup[bag := updated.value];
      e := None;
    }

    /** A receiver-less read such as `gist` (lib/pry/config.rb:118): NameError when the table lacks the name. */
    method BareRead(name: Key) returns (r: Outcome<Value>)
      ensures r == Store.BareRead(State(), name)
    {
      if name in lookup {
        r := Ok(lookup[name]);
      } else {
        r := Err(NameError(name));
      }
    }

    /** `configure_gist` (lib/pry/config.rb:115-119). */
    method ConfigureGist() returns (e: Option<Error>)
      modifies this
      ensures Reached(Store.ConfigureGist(old(State())), e)
    {
      var _ := MethodMissing(Assign(GistKey), [Bag(map[])]);
      e := UpdateField(GistKey, InspecterField, PrettyInspect);
    }

    /** `configure_history` (lib/pry/config.rb:121-131). */
    method ConfigureHistory(home: Option<string>) returns (e: Option<Error>)
      modifies this
      ensures Reached(Store.ConfigureHistory(old(State()), home), e)
    {
      var current := MethodMissing(HistoryKey, []);
      if current.Err? {
        return Some(current.error);
      }
      if !Truthy(current.value) {
        var _ := MethodMissing(Assign(HistoryKey), [Bag(map[])]);
      }
      e := FillHistory(home);
    }

    /** Lines 123-130. */
    method FillHistory(home: Option<string>) returns (e: Option<Error>)
      modifies this
      ensures Reached(Store.FillHistory(old(State()), home), e)
    {
      e := EnableHistory(home);
      if e.Some? {
        return;
      }
      var history := BareRead(HistoryKey);
      if history.Err? {
        return Some(history.error);
      }
      var file := GetField(history.value, FileField);
      if file.Err? {
        return Some(file.error);
      }
      if file.value == Nil {
        e := DisableHistory();
      }
    }

    /** Lines 123-125. */
    method EnableHistory(home: Option<string>) returns (e: Option<Error>)
      modifies this
      ensures Reached(Store.EnableHistory(old(State()), home), e)
    {
      e := UpdateField(HistoryKey, ShouldSaveField, Bool(true));
      if e.Some? {
        return;
      }
      e := UpdateField(HistoryKey, ShouldLoadField, Bool(true));
      if e.Some? {
        return;
      }
      e := UpdateField(HistoryKey, FileField, PathValue(home));
    }

    /** Lines 127-129. */
    method DisableHistory() returns (e: Option<Error>)
      modifies this
      ensures Reached(Store.DisableHistory(old(State())), e)
    {
      SetIvar(ShouldLoadRc, Bool(false));
      e := UpdateField(HistoryKey, ShouldSaveField, Bool(false));
      if e.Some? {
        return;
      }
      e := UpdateField(HistoryKey, ShouldLoadField, Bool(false));
    }

    /** `configure_ls` (lib/pry/config.rb:91-113). */
    method ConfigureLs()
      modifies this
      ensures State() == Store.ConfigureLs(old(State()))
    {
      var _ := MethodMissing(Assign(LsKey), [Bag(LsTable)]);
    }

    /**
     * `@a = v`, as the generated writers and `hooks=` do it: one instance
     * variable changes.  Each arm calls a writer whose frame is that one
     * field, so no arm has to show that the other 31 fields are unchanged.
     */
    method SetIvar(a: Attribute, v: Value)
      modifies this
      ensures IvarValues() == WithIvar(old(IvarValues()), a, v)
      ensures lookup == old(lookup) && warnings == old(warnings)
    {
      match a
      case Input => WriteInput(v);
      case Output => WriteOutput(v);
      case Commands => WriteCommands(v);
      case PromptName => WritePromptName(v);
      case Prompt => WritePrompt(v);
      case PromptSafeObjects => WritePromptSafeObjects(v);
      case Print => WritePrint(v);
      case Quiet => WriteQuiet(v);
      case ExceptionHandler => WriteExceptionHandler(v);
      case ExceptionWhitelist => WriteExceptionWhitelist(v);
      case Hooks => WriteHooks(v);
      case Pager => WritePager(v);
      case System => WriteSystem(v);
      case Color => WriteColor(v);
      case DefaultWindowSize => WriteDefaultWindowSize(v);
      case Editor => WriteEditor(v);
      case ShouldLoadRc => WriteShouldLoadRc(v);
      case ShouldLoadLocalRc => WriteShouldLoadLocalRc(v);
      case ShouldTrapInterrupts => WriteShouldTrapInterrupts(v);
      case DisableAutoReload => WriteDisableAutoReload(v);
      case CommandPrefix => WriteCommandPrefix(v);
      case AutoIndent => WriteAutoIndent(v);
      case CorrectIndent => WriteCorrectIndent(v);
      case CollisionWarning => WriteCollisionWarning(v);
      case OutputPrefix => WriteOutputPrefix(v);
      case Requires => WriteRequires(v);
      case ShouldLoadRequires => WriteShouldLoadRequires(v);
      case ShouldLoadPlugins => WriteShouldLoadPlugins(v);
      case ControlDHandler => WriteControlDHandler(v);
      case MemorySize => WriteMemorySize(v);
      case ExtraStickyLocals => WriteExtraStickyLocals(v);
      case Completer => WriteCompleter(v);
    }

    method WriteInput(v: Value)
      modifies this`input
      ensures IvarValues() == WithIvar(old(IvarValues()), Input, v)
    {
      input := v;
    }

    method WriteOutput(v: Value)
      modifies this`output
      ensures IvarValues() == WithIvar(old(IvarValues()), Output, v)
    {
      output := v;
    }

    method WriteCommands(v: Value)
      modifies this`commands
      ensures IvarValues() == WithIvar(old(IvarValues()), Commands, v)
    {
      commands := v;
    }

    method WritePromptName(v: Value)
      modifies this`promptName
      ensures IvarValues() == WithIvar(old(IvarValues()), PromptName, v)
    {
      promptName := v;
    }

    method WritePrompt(v: Value)
      modifies this`prompt
      ensures IvarValues() == WithIvar(old(IvarValues()), Prompt, v)
    {
      prompt := v;
    }

    method WritePromptSafeObjects(v: Value)
      modifies this`promptSafeObjects
      ensures IvarValues() == WithIvar(old(IvarValues()), PromptSafeObjects, v)
    {
      promptSafeObjects := v;
    }

    method WritePrint(v: Value)
      modifies this`print_
      ensures IvarValues() == WithIvar(old(IvarValues()), Print, v)
    {
      print_ := v;
    }

    method WriteQuiet(v: Value)
      modifies this`quiet
      ensures IvarValues() == WithIvar(old(IvarValues()), Quiet, v)
    {
      quiet := v;
    }

    method WriteExceptionHandler(v: Value)
      modifies this`exceptionHandler
      ensures IvarValues() == WithIvar(old(IvarValues()), ExceptionHandler, v)
    {
      exceptionHandler := v;
    }

    method WriteExceptionWhitelist(v: Value)
      modifies this`exceptionWhitelist
      ensures IvarValues() == WithIvar(old(IvarValues()), ExceptionWhitelist, v)
    {
      exceptionWhitelist := v;
    }

    method WriteHooks(v: Value)
      modifies this`hooks
      ensures IvarValues() == WithIvar(old(IvarValues()), Hooks, v)
    {
      hooks := v;
    }

    method WritePager(v: Value)
      modifies this`pager
      ensures IvarValues() == WithIvar(old(IvarValues()), Pager, v)
    {
      pager := v;
    }

    method WriteSystem(v: Value)
      modifies this`system
      ensures IvarValues() == WithIvar(old(IvarValues()), System, v)
    {
      system := v;
    }

    method WriteColor(v: Value)
      modifies this`color
      ensures IvarValues() == WithIvar(old(IvarValues()), Color, v)
    {
      color := v;
    }

    method WriteDefaultWindowSize(v: Value)
      modifies this`defaultWindowSize
      ensures IvarValues() == WithIvar(old(IvarValues()), DefaultWindowSize, v)
    {
      defaultWindowSize := v;
    }

    method WriteEditor(v: Value)
      modifies this`editor
      ensures IvarValues() == WithIvar(old(IvarValues()), Editor, v)
    {
      editor := v;
    }

    method WriteShouldLoadRc(v: Value)
      modifies this`shouldLoadRc
      ensures IvarValues() == WithIvar(old(IvarValues()), ShouldLoadRc, v)
    {
      shouldLoadRc := v;
    }

    method WriteShouldLoadLocalRc(v: Value)
      modifies this`shouldLoadLocalRc
      ensures IvarValues() == WithIvar(old(IvarValues()), ShouldLoadLocalRc, v)
    {
      shouldLoadLocalRc := v;
    }

    method WriteShouldTrapInterrupts(v: Value)
      modifies this`shouldTrapInterrupts
      ensures IvarValues() == WithIvar(old(IvarValues()), ShouldTrapInterrupts, v)
    {
      shouldTrapInterrupts := v;
    }

    method WriteDisableAutoReload(v: Value)
      modifies this`disableAutoReload
      ensures IvarValues() == WithIvar(old(IvarValues()), DisableAutoReload, v)
    {
      disableAutoReload := v;
    }

    method WriteCommandPrefix(v: Value)
      modifies this`commandPrefix
      ensures IvarValues() == WithIvar(old(IvarValues()), CommandPrefix, v)
    {
      commandPrefix := v;
    }

    method WriteAutoIndent(v: Value)
      modifies this`autoIndent
      ensures IvarValues() == WithIvar(old(IvarValues()), AutoIndent, v)
    {
      autoIndent := v;
    }

    method WriteCorrectIndent(v: Value)
      modifies this`correctIndent
      ensures IvarValues() == WithIvar(old(IvarValues()), CorrectIndent, v)
    {
      correctIndent := v;
    }

    method WriteCollisionWarning(v: Value)
      modifies this`collisionWarning
      ensures IvarValues() == WithIvar(old(IvarValues()), CollisionWarning, v)
    {
      collisionWarning := v;
    }

    method WriteOutputPrefix(v: Value)
      modifies this`outputPrefix
      ensures IvarValues() == WithIvar(old(IvarValues()), OutputPrefix, v)
    {
      outputPrefix := v;
    }

    method WriteRequires(v: Value)
      modifies this`requires_
      ensures IvarValues() == WithIvar(old(IvarValues()), Requires, v)
    {
      requires_ := v;
    }

    method WriteShouldLoadRequires(v: Value)
      modifies this`shouldLoadRequires
      ensures IvarValues() == WithIvar(old(IvarValues()), ShouldLoadRequires, v)
    {
      shouldLoadRequires := v;
    }

    method WriteShouldLoadPlugins(v: Value)
      modifies this`shouldLoadPlugins
      ensures IvarValues() == WithIvar(old(IvarValues()), ShouldLoadPlugins, v)
    {
      shouldLoadPlugins := v;
    }

    method WriteControlDHandler(v: Value)
      modifies this`controlDHandler
      ensures IvarValues() == WithIvar(old(IvarValues()), ControlDHandler, v)
    {
      controlDHandler := v;
    }

    method WriteMemorySize(v: Value)
      modifies this`memorySize
      ensures IvarValues() == WithIvar(old(IvarValues()), MemorySize, v)
    {
      memorySize := v;
    }

    method WriteExtraStickyLocals(v: Value)
      modifies this`extraStickyLocals
      ensures IvarValues() == WithIvar(old(IvarValues()), ExtraStickyLocals, v)
    {
      extraStickyLocals := v;
    }

    method WriteCompleter(v: Value)
      modifies this`completer
      ensures IvarValues() == WithIvar(old(IvarValues()), Completer, v)
    {
      completer := v;
    }
  }
}
