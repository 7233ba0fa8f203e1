/**
 * Pry::Config (lib/pry/config.rb) as pure functions over its state: what each
 * call returns and the state it leaves.  The class in config.dfy runs the same
 * operations step by step and is proved to agree with these functions.
 */
module Store {
  import opened Wrappers
  import opened Names
  import opened Values
  import opened Defaults

  /**
   * The state of one store: the table `@lookup`, the instance variables that
   * the `attr_accessor` methods read and write (a second store, separate from
   * the table), and how many warnings `hooks=` has printed.
   */
  datatype ConfigState = ConfigState(lookup: map<Key, Value>, ivars: Ivars, warnings: nat)

  /** What one call returns, or raises, and the state it leaves behind. */
  datatype Step = Step(result: Outcome<Value>, state: ConfigState)

  /**
   * The instance variables `attr_accessor *DEFAULT_STATE.keys`
   * (lib/pry/config.rb:43) reads and writes, one per option.  Ruby reads an
   * unassigned one as nil, so nil stands for both.
   */
  datatype Ivars = Ivars(
    input: Value, output: Value, commands: Value, promptName: Value,
    prompt: Value, promptSafeObjects: Value, print_: Value, quiet: Value,
    exceptionHandler: Value, exceptionWhitelist: Value, hooks: Value, pager: Value,
    system: Value, color: Value, defaultWindowSize: Value, editor: Value,
    shouldLoadRc: Value, shouldLoadLocalRc: Value, shouldTrapInterrupts: Value, disableAutoReload: Value,
    commandPrefix: Value, autoIndent: Value, correctIndent: Value, collisionWarning: Value,
    outputPrefix: Value, requires_: Value, shouldLoadRequires: Value, shouldLoadPlugins: Value,
    controlDHandler: Value, memorySize: Value, extraStickyLocals: Value, completer: Value)

  /** The generated reader for `a`: `@a`. */
  function Ivar(iv: Ivars, a: Attribute): Value {
    match a
    case Input => iv.input
    case Output => iv.output
    case Commands => iv.commands
    case PromptName => iv.promptName
    case Prompt => iv.prompt
    case PromptSafeObjects => iv.promptSafeObjects
    case Print => iv.print_
    case Quiet => iv.quiet
    case ExceptionHandler => iv.exceptionHandler
    case ExceptionWhitelist => iv.exceptionWhitelist
    case Hooks => iv.hooks
    case Pager => iv.pager
    case System => iv.system
    case Color => iv.color
    case DefaultWindowSize => iv.defaultWindowSize
    case Editor => iv.editor
    case ShouldLoadRc => iv.shouldLoadRc
    case ShouldLoadLocalRc => iv.shouldLoadLocalRc
    case ShouldTrapInterrupts => iv.shouldTrapInterrupts
    case DisableAutoReload => iv.disableAutoReload
    case CommandPrefix => iv.commandPrefix
    case AutoIndent => iv.autoIndent
    case CorrectIndent => iv.correctIndent
    case CollisionWarning => iv.collisionWarning
    case OutputPrefix => iv.outputPrefix
    case Requires => iv.requires_
    case ShouldLoadRequires => iv.shouldLoadRequires
    case ShouldLoadPlugins => iv.shouldLoadPlugins
    case ControlDHandler => iv.controlDHandler
    case MemorySize => iv.memorySize
    case ExtraStickyLocals => iv.extraStickyLocals
    case Completer => iv.completer
  }

  /** `@a = v`. */
  function WithIvar(iv: Ivars, a: Attribute, v: Value): Ivars {
    match a
    case Input => iv.(input := v)
    case Output => iv.(output := v)
    case Commands => iv.(commands := v)
    case PromptName => iv.(promptName := v)
    case Prompt => iv.(prompt := v)
    case PromptSafeObjects => iv.(promptSafeObjects := v)
    case Print => iv.(print_ := v)
    case Quiet => iv.(quiet := v)
    case ExceptionHandler => iv.(exceptionHandler := v)
    case ExceptionWhitelist => iv.(exceptionWhitelist := v)
    case Hooks => iv.(hooks := v)
    case Pager => iv.(pager := v)
    case System => iv.(system := v)
    case Color => iv.(color := v)
    case DefaultWindowSize => iv.(defaultWindowSize := v)
    case Editor => iv.(editor := v)
    case ShouldLoadRc => iv.(shouldLoadRc := v)
    case ShouldLoadLocalRc => iv.(shouldLoadLocalRc := v)
    case ShouldTrapInterrupts => iv.(shouldTrapInterrupts := v)
    case DisableAutoReload => iv.(disableAutoReload := v)
    case CommandPrefix => iv.(commandPrefix := v)
    case AutoIndent => iv.(autoIndent := v)
    case CorrectIndent => iv.(correctIndent := v)
    case CollisionWarning => iv.(collisionWarning := v)
    case OutputPrefix => iv.(outputPrefix := v)
    case Requires => iv.(requires_ := v)
    case ShouldLoadRequires => iv.(shouldLoadRequires := v)
    case ShouldLoadPlugins => iv.(shouldLoadPlugins := v)
    case ControlDHandler => iv.(controlDHandler := v)
    case MemorySize => iv.(memorySize := v)
    case ExtraStickyLocals => iv.(extraStickyLocals := v)
    case Completer => iv.(completer := v)
  }

  /**
   * The instance variables of a new object: `attr_accessor` (lib/pry/config.rb:43)
   * defines readers and writers but assigns nothing.
   */
  const FreshIvars: Ivars := Ivars(
    Nil, Nil, Nil, Nil, Nil, Nil, Nil, Nil,
    Nil, Nil, Nil, Nil, Nil, Nil, Nil, Nil,
    Nil, Nil, Nil, Nil, Nil, Nil, Nil, Nil,
    Nil, Nil, Nil, Nil, Nil, Nil, Nil, Nil)

  /** Every generated reader of a new object gives nil. */
  lemma FreshIvarsAreNil(a: Attribute)
    ensures Ivar(FreshIvars, a) == Nil
  {
  }

  /** After `@a = v` the reader of `a` gives `v`. */
  lemma WithIvarReadsBack(iv: Ivars, a: Attribute, v: Value)
    ensures Ivar(WithIvar(iv, a, v), a) == v
  {
    match a
    case Input =>
    case Output =>
    case Commands =>
    case PromptName =>
    case Prompt =>
    case PromptSafeObjects =>
    case Print =>
    case Quiet =>
    case ExceptionHandler =>
    case ExceptionWhitelist =>
    case Hooks =>
    case Pager =>
    case System =>
    case Color =>
    case DefaultWindowSize =>
    case Editor =>
    case ShouldLoadRc =>
    case ShouldLoadLocalRc =>
    case ShouldTrapInterrupts =>
    case DisableAutoReload =>
    case CommandPrefix =>
    case AutoIndent =>
    case CorrectIndent =>
    case CollisionWarning =>
    case OutputPrefix =>
    case Requires =>
    case ShouldLoadRequires =>
    case ShouldLoadPlugins =>
    case ControlDHandler =>
    case MemorySize =>
    case ExtraStickyLocals =>
    case Completer =>
  }

  /** `@a = v` leaves the reader of every other option as it was. */
  lemma WithIvarFrame(iv: Ivars, a: Attribute, b: Attribute, v: Value)
    requires a != b
    ensures Ivar(WithIvar(iv, a, v), b) == Ivar(iv, b)
  {
    if a.Input? || a.Output? || a.Commands? || a.PromptName?
       || a.Prompt? || a.PromptSafeObjects? || a.Print? || a.Quiet? {
      WithIvarFrame0(iv, a, b, v);
    } else if a.ExceptionHandler? || a.ExceptionWhitelist? || a.Hooks? || a.Pager?
       || a.System? || a.Color? || a.DefaultWindowSize? || a.Editor? {
      WithIvarFrame1(iv, a, b, v);
    } else if a.ShouldLoadRc? || a.ShouldLoadLocalRc? || a.ShouldTrapInterrupts? || a.DisableAutoReload?
       || a.CommandPrefix? || a.AutoIndent? || a.CorrectIndent? || a.CollisionWarning? {
      WithIvarFrame2(iv, a, b, v);
    } else {
      WithIvarFrame3(iv, a, b, v);
    }
  }

  /** WithIvarFrame for the options Input to Quiet, one quarter of the match at a time. */
  lemma WithIvarFrame0(iv: Ivars, a: Attribute, b: Attribute, v: Value)
    requires a != b
    requires a.Input? || a.Output? || a.Commands? || a.PromptName?
       || a.Prompt? || a.PromptSafeObjects? || a.Print? || a.Quiet?
    ensures Ivar(WithIvar(iv, a, v), b) == Ivar(iv, b)
  {
    match a
    case Input =>
    case Output =>
    case Commands =>
    case PromptName =>
    case Prompt =>
    case PromptSafeObjects =>
    case Print =>
    case Quiet =>
    case _ =>
  }

  /** WithIvarFrame for the options ExceptionHandler to Editor, one quarter of the match at a time. */
  lemma WithIvarFrame1(iv: Ivars, a: Attribute, b: Attribute, v: Value)
    requires a != b
    requires a.ExceptionHandler? || a.ExceptionWhitelist? || a.Hooks? || a.Pager?
       || a.System? || a.Color? || a.DefaultWindowSize? || a.Editor?
    ensures Ivar(WithIvar(iv, a, v), b) == Ivar(iv, b)
  {
    match a
    case ExceptionHandler =>
    case ExceptionWhitelist =>
    case Hooks =>
    case Pager =>
    case System =>
    case Color =>
    case DefaultWindowSize =>
    case Editor =>
    case _ =>
  }

  /** WithIvarFrame for the options ShouldLoadRc to CollisionWarning, one quarter of the match at a time. */
  lemma WithIvarFrame2(iv: Ivars, a: Attribute, b: Attribute, v: Value)
    requires a != b
    requires a.ShouldLoadRc? || a.ShouldLoadLocalRc? || a.ShouldTrapInterrupts? || a.DisableAutoReload?
       || a.CommandPrefix? || a.AutoIndent? || a.CorrectIndent? || a.CollisionWarning?
    ensures Ivar(WithIvar(iv, a, v), b) == Ivar(iv, b)
  {
    match a
    case ShouldLoadRc =>
    case ShouldLoadLocalRc =>
    case ShouldTrapInterrupts =>
    case DisableAutoReload =>
    case CommandPrefix =>
    case AutoIndent =>
    case CorrectIndent =>
    case CollisionWarning =>
    case _ =>
  }

  /** WithIvarFrame for the options OutputPrefix to Completer, one quarter of the match at a time. */
  lemma WithIvarFrame3(iv: Ivars, a: Attribute, b: Attribute, v: Value)
    requires a != b
    requires a.OutputPrefix? || a.Requires? || a.ShouldLoadRequires? || a.ShouldLoadPlugins?
       || a.ControlDHandler? || a.MemorySize? || a.ExtraStickyLocals? || a.Completer?
    ensures Ivar(WithIvar(iv, a, v), b) == Ivar(iv, b)
  {
    match a
    case OutputPrefix =>
    case Requires =>
    case ShouldLoadRequires =>
    case ShouldLoadPlugins =>
    case ControlDHandler =>
    case MemorySize =>
    case ExtraStickyLocals =>
    case Completer =>
    case _ =>
  }

  /** `cfg[key]` (lib/pry/config.rb:56-58): Hash#[] gives nil for a missing key. */
  function Index(lookup: map<Key, Value>, key: Key): Value {
    if key in lookup then lookup[key] else Nil
  }

  /** `args.at(0)`: nil when there are no arguments. */
  function FirstArg(args: seq<Value>): Value {
    if |args| == 0 then Nil else args[0]
  }

  /**
   * `method_missing(name, *args)` (lib/pry/config.rb:64-73): a name in the
   * table is read; otherwise a writer name stores its first argument under
   * the name without `=`; otherwise `super` raises NoMethodError.
   */
  function MethodMissing(s: ConfigState, name: Key, args: seq<Value>): Step {
    if name in s.lookup then
      Step(Ok(s.lookup[name]), s)
    else if name.Assign? then
      Step(Ok(FirstArg(args)), s.(lookup := s.lookup[name.base := FirstArg(args)]))
    else
      Step(Err(NoMethodError(name)), s)
  }

  /**
   * A call with neither receiver nor arguments, such as `gist` on
   * lib/pry/config.rb:118 or `history` on lines 123-129.  It reaches
   * `method_missing` like `self.gist` does, except that `super` then raises
   * NameError, not NoMethodError.
   */
  function BareRead(s: ConfigState, name: Key): (r: Outcome<Value>)
    ensures !name.Assign? ==> MethodMissing(s, name, []).state == s
    ensures !name.Assign? ==> (r.Ok? <==> MethodMissing(s, name, []).result.Ok?)
    ensures r.Ok? ==> r == MethodMissing(s, name, []).result
    ensures r.Err? ==> r.error == NameError(name) && name !in s.lookup
  {
    if name in s.lookup then Ok(s.lookup[name]) else Err(NameError(name))
  }

  /** `quiet?`, the alias of the `quiet` reader (lib/pry/config.rb:45). */
  const QuietAlias: Key := Other("quiet?")

  /** The methods of Pry::Config that the model gives members of their own. */
  const LookupReader: Key := Other("lookup")
  const IndexReader: Key := Other("[]")
  const MergeMethod: Key := Other("merge!")

  predicate IsOwnMethod(name: Key) {
    name == LookupReader || name == IndexReader || name == Assign(IndexReader) || name == MergeMethod
  }

  /** A generated reader: `@a`, and it takes no arguments. */
  function ReadIvar(s: ConfigState, a: Attribute, args: seq<Value>): Step {
    if |args| == 0 then Step(Ok(Ivar(s.ivars, a)), s) else Step(Err(ArgumentError(|args|, 0)), s)
  }

  /** A writer `attr_accessor` generated: sets `@a` and returns the value. */
  function WriteIvar(s: ConfigState, a: Attribute, v: Value): Step {
    Step(Ok(v), s.(ivars := WithIvar(s.ivars, a, v)))
  }

  /**
   * `hooks=(v)` (lib/pry/config.rb:81-88), which replaces the writer
   * `attr_accessor` generated for :hooks: a Hash is converted with
   * Pry::Hooks.from_hash after one warning; anything else is kept as it is.
   * Either way only `@hooks` changes.
   */
  function SetHooks(s: ConfigState, v: Value): Step {
    if v.Hash? then
      var hooks := HooksFromHash(v.entries);
      Step(Ok(hooks), s.(ivars := WithIvar(s.ivars, Hooks, hooks), warnings := s.warnings + 1))
    else
      Step(Ok(v), s.(ivars := WithIvar(s.ivars, Hooks, v)))
  }

  /**
   * Sending `name(*args)` to the store.  Ruby calls a method when the class
   * defines one and `method_missing` otherwise; the class defines a reader and
   * a writer per option name (lib/pry/config.rb:43), `quiet?` (line 45) and
   * `hooks=` (lines 81-88).
   */
  function Send(s: ConfigState, name: Key, args: seq<Value>): Step
    requires !IsOwnMethod(name)
  {
    match name
    case Known(a) => ReadIvar(s, a, args)
    case Assign(Known(a)) =>
      if |args| != 1 then Step(Err(ArgumentError(|args|, 1)), s)
      else if a == Hooks then SetHooks(s, args[0])
      else WriteIvar(s, a, args[0])
    case Other(_) =>
      if name == QuietAlias then ReadIvar(s, Quiet, args) else MethodMissing(s, name, args)
    case Assign(_) => MethodMissing(s, name, args)
  }

  /** The names that Send hands to `method_missing`. */
  predicate ReachesMethodMissing(name: Key) {
    !IsOwnMethod(name) && !name.Known? && !(name.Assign? && name.base.Known?) && name != QuietAlias
  }

  /**
   * `merge!(other)` (lib/pry/config.rb:75-77): a new table, the receiver's
   * overlaid with the other's (another store's table, or a plain hash);
   * entries of the other win.
   */
  function Merge(lookup: map<Key, Value>, overlay: map<Key, Value>): (r: map<Key, Value>)
    ensures r.Keys == lookup.Keys + overlay.Keys
    ensures forall k :: k in overlay ==> r[k] == overlay[k]
    ensures forall k :: k in lookup && k !in overlay ==> r[k] == lookup[k]
  {
    lookup + overlay
  }

  /** Lines 49-50: a copy of DEFAULT_STATE with the caller's options merged over it. */
  function Seed(options: map<Key, Value>): (t: map<Key, Value>)
    ensures forall a: Attribute :: Known(a) in t
    ensures forall k :: k in options ==> k in t && t[k] == options[k]
    ensures forall a: Attribute :: Known(a) !in options ==> t[Known(a)] == DefaultProc(a)
    ensures forall k :: k in t ==> k in options || k.Known?
  {
    DefaultStateShape();
    DefaultState + options
  }

  /** The sub-bags the bootstrap routines store, and the fields they set. */
  const GistKey: Key := Other("gist")
  const HistoryKey: Key := Other("history")
  const LsKey: Key := Other("ls")
  const InspecterField: Identifier := "inspecter"
  const ShouldSaveField: Identifier := "should_save"
  const ShouldLoadField: Identifier := "should_load"
  const FileField: Identifier := "file"

  /**
   * `bag.field = v` inside the bootstrap routines: `bag` is read through
   * `method_missing` and the OpenStruct it returns, which the table holds,
   * is changed in place.  The routines call `method_missing` and the
   * `should_load_rc=` writer directly where a send reaches them; the lemma
   * BootstrapSendsResolve shows that Send would route each call there.
   */
  function UpdateField(s: ConfigState, bag: Key, field: Identifier, v: Value): Outcome<ConfigState> {
    var obj :- BareRead(s, bag);
    var updated :- SetField(obj, field, v);
    Ok(s.(lookup := s.lookup[bag := updated]))
  }

  /** `configure_gist` (lib/pry/config.rb:115-119). */
  function ConfigureGist(s: ConfigState): Outcome<ConfigState> {
    var s1 := MethodMissing(s, Assign(GistKey), [Bag(map[])]).state;
    UpdateField(s1, GistKey, InspecterField, PrettyInspect)
  }

  /**
   * `configure_history` (lib/pry/config.rb:121-131); `home` is what
   * `File.expand_path("~/.pry_history") rescue nil` gives.
   */
  function ConfigureHistory(s: ConfigState, home: Option<string>): Outcome<ConfigState> {
    var read := MethodMissing(s, HistoryKey, []);
    var current :- read.result;
    var s1 := if Truthy(current) then read.state else MethodMissing(read.state, Assign(HistoryKey), [Bag(map[])]).state;
    FillHistory(s1, home)
  }

  /** Lines 123-130: the flags and the path, turned off again when no path was found. */
  function FillHistory(s: ConfigState, home: Option<string>): Outcome<ConfigState> {
    var s1 :- EnableHistory(s, home);
    var history :- BareRead(s1, HistoryKey);
    var file :- GetField(history, FileField);
    if file == Nil then DisableHistory(s1) else Ok(s1)
  }

  /** Lines 123-125: saving and loading on, and the history file's path. */
  function EnableHistory(s: ConfigState, home: Option<string>): Outcome<ConfigState> {
    var s1 :- UpdateField(s, HistoryKey, ShouldSaveField, Bool(true));
    var s2 :- UpdateField(s1, HistoryKey, ShouldLoadField, Bool(true));
    UpdateField(s2, HistoryKey, FileField, PathValue(home))
  }

  /** Lines 127-129, when no path was found: no rc file, saving and loading off. */
  function DisableHistory(s: ConfigState): Outcome<ConfigState> {
    var s1 := WriteIvar(s, ShouldLoadRc, Bool(false)).state;
    var s2 :- UpdateField(s1, HistoryKey, ShouldSaveField, Bool(false));
    UpdateField(s2, HistoryKey, ShouldLoadField, Bool(false))
  }

  /** `configure_ls` (lib/pry/config.rb:91-113). */
  function ConfigureLs(s: ConfigState): ConfigState {
    MethodMissing(s, Assign(LsKey), [Bag(LsTable)]).state
  }

  /** `Pry::Config.new(options)` (lib/pry/config.rb:48-54), which raises when a bootstrap routine does. */
  function Construct(options: map<Key, Value>, home: Option<string>): Outcome<ConfigState> {
    var s0 := ConfigState(Seed(options), FreshIvars, 0);
    var s1 :- ConfigureGist(s0);
    var s2 :- ConfigureHistory(s1, home);
    Ok(ConfigureLs(s2))
  }
}
