/**
 * Names of options and methods.  Ruby identifies both by symbols; the 32 keys
 * of DEFAULT_STATE are special because `attr_accessor` turns each of them into
 * a reader and a writer method, so the model keeps them as an enumeration and
 * every other symbol as its text.
 */
module Names {
  import opened Wrappers

  /** The keys of DEFAULT_STATE, in the order the table lists them. */
  datatype Attribute =
    | Input
    | Output
    | Commands
    | PromptName
    | Prompt
    | PromptSafeObjects
    | Print
    | Quiet
    | ExceptionHandler
    | ExceptionWhitelist
    | Hooks
    | Pager
    | System
    | Color
    | DefaultWindowSize
    | Editor
    | ShouldLoadRc
    | ShouldLoadLocalRc
    | ShouldTrapInterrupts
    | DisableAutoReload
    | CommandPrefix
    | AutoIndent
    | CorrectIndent
    | CollisionWarning
    | OutputPrefix
    | Requires
    | ShouldLoadRequires
    | ShouldLoadPlugins
    | ControlDHandler
    | MemorySize
    | ExtraStickyLocals
    | Completer

  /** The symbol's text, e.g. `Name(ShouldLoadRc) == "should_load_rc"`. */
  function Name(a: Attribute): string {
    match a
    case Input => "input"
    case Output => "output"
    case Commands => "commands"
    case PromptName => "prompt_name"
    case Prompt => "prompt"
    case PromptSafeObjects => "prompt_safe_objects"
    case Print => "print"
    case Quiet => "quiet"
    case ExceptionHandler => "exception_handler"
    case ExceptionWhitelist => "exception_whitelist"
    case Hooks => "hooks"
    case Pager => "pager"
    case System => "system"
    case Color => "color"
    case DefaultWindowSize => "default_window_size"
    case Editor => "editor"
    case ShouldLoadRc => "should_load_rc"
    case ShouldLoadLocalRc => "should_load_local_rc"
    case ShouldTrapInterrupts => "should_trap_interrupts"
    case DisableAutoReload => "disable_auto_reload"
    case CommandPrefix => "command_prefix"
    case AutoIndent => "auto_indent"
    case CorrectIndent => "correct_indent"
    case CollisionWarning => "collision_warning"
    case OutputPrefix => "output_prefix"
    case Requires => "requires"
    case ShouldLoadRequires => "should_load_requires"
    case ShouldLoadPlugins => "should_load_plugins"
    case ControlDHandler => "control_d_handler"
    case MemorySize => "memory_size"
    case ExtraStickyLocals => "extra_sticky_locals"
    case Completer => "completer"
  }

  /** No option name ends in `=`: a writer's name is never itself an option name. */
  lemma NoNameEndsInAssign(a: Attribute)
    ensures |Name(a)| > 0 && Name(a)[|Name(a)| - 1] != '='
  {
    match a
    case Input =>
    case Output =>
    case Commands =>
    case PromptName =>
    case Prompt =>
    case PromptSafeObjects =>
    case Print =>
    case Quiet =>
    case ExceptionHandler =>
    case ExceptionWhitelist =>
    case Hooks =>
    case Pager =>
    case System =>
    case Color =>
    case DefaultWindowSize =>
    case Editor =>
    case ShouldLoadRc =>
    case ShouldLoadLocalRc =>
    case ShouldTrapInterrupts =>
    case DisableAutoReload =>
    case CommandPrefix =>
    case AutoIndent =>
    case CorrectIndent =>
    case CollisionWarning =>
    case OutputPrefix =>
    case Requires =>
    case ShouldLoadRequires =>
    case ShouldLoadPlugins =>
    case ControlDHandler =>
    case MemorySize =>
    case ExtraStickyLocals =>
    case Completer =>
  }

  /**
   * Tells the option names apart by their length and at most two letters: on
   * the text of an option it gives that option (ClassifyName), so the texts
   * are distinct.  On any other string it is merely some answer.
   */
  function Classify(s: string): Option<Attribute> {
    match |s|
    case 5 =>
      if s[0] == 'c' then Some(Color)
      else if s[0] == 'h' then Some(Hooks)
      else if s[0] == 'i' then Some(Input)
      else if s[0] == 'p' then if s[1] == 'a' then Some(Pager)
        else Some(Print)
      else Some(Quiet)
    case 6 =>
      if s[0] == 'e' then Some(Editor)
      else if s[0] == 'o' then Some(Output)
      else if s[0] == 'p' then Some(Prompt)
      else Some(System)
    case 8 =>
      if s[0] == 'c' then Some(Commands)
      else Some(Requires)
    case 9 =>
      Some(Completer)
    case 11 =>
      if s[0] == 'a' then Some(AutoIndent)
      else if s[0] == 'm' then Some(MemorySize)
      else Some(PromptName)
    case 13 =>
      Some(OutputPrefix)
    case 14 =>
      if s[2] == 'm' then Some(CommandPrefix)
      else if s[2] == 'o' then Some(ShouldLoadRc)
      else Some(CorrectIndent)
    case 17 =>
      if s[2] == 'c' then Some(ExceptionHandler)
      else if s[2] == 'l' then Some(CollisionWarning)
      else Some(ControlDHandler)
    case 19 =>
      if s[9] == '_' then Some(ExceptionWhitelist)
      else if s[9] == 'a' then Some(ShouldLoadPlugins)
      else if s[9] == 'c' then Some(ExtraStickyLocals)
      else if s[9] == 'f' then Some(PromptSafeObjects)
      else if s[9] == 'i' then Some(DefaultWindowSize)
      else Some(DisableAutoReload)
    case 20 =>
      if s[12] == 'l' then Some(ShouldLoadLocalRc)
      else Some(ShouldLoadRequires)
    case 22 =>
      Some(ShouldTrapInterrupts)
    case _ => None
  }

  lemma ClassifyName(a: Attribute)
    ensures Classify(Name(a)) == Some(a)
  {
    match a
    case Input =>
    case Output =>
    case Commands =>
    case PromptName =>
    case Prompt =>
    case PromptSafeObjects =>
    case Print =>
    case Quiet =>
    case ExceptionHandler =>
    case ExceptionWhitelist =>
    case Hooks =>
    case Pager =>
    case System =>
    case Color =>
    case DefaultWindowSize =>
    case Editor =>
    case ShouldLoadRc =>
    case ShouldLoadLocalRc =>
    case ShouldTrapInterrupts =>
    case DisableAutoReload =>
    case CommandPrefix =>
    case AutoIndent =>
    case CorrectIndent =>
    case CollisionWarning =>
    case OutputPrefix =>
    case Requires =>
    case ShouldLoadRequires =>
    case ShouldLoadPlugins =>
    case ControlDHandler =>
    case MemorySize =>
    case ExtraStickyLocals =>
    case Completer =>
  }

  /** Distinct options have distinct texts. */
  lemma NameInjective(a: Attribute, b: Attribute)
    ensures Name(a) == Name(b) ==> a == b
  {
    ClassifyName(a);
    ClassifyName(b);
  }

  /** The texts of the option names. */
  const OptionNames: set<string> := {
    "input", "output", "commands", "prompt_name",
    "prompt", "prompt_safe_objects", "print", "quiet",
    "exception_handler", "exception_whitelist", "hooks", "pager",
    "system", "color", "default_window_size", "editor",
    "should_load_rc", "should_load_local_rc", "should_trap_interrupts", "disable_auto_reload",
    "command_prefix", "auto_indent", "correct_indent", "collision_warning",
    "output_prefix", "requires", "should_load_requires", "should_load_plugins",
    "control_d_handler", "memory_size", "extra_sticky_locals", "completer"
  }

  /** The text of a symbol that is neither an option name nor a writer's name. */
  type Identifier = s: string | (|s| == 0 || s[|s| - 1] != '=') && s !in OptionNames
    witness ""

  /** Every option's text is one of OptionNames, so an Identifier is never an option's text. */
  lemma OptionNamesAreNames(a: Attribute, id: Identifier)
    ensures Name(a) in OptionNames
    ensures Name(a) != id
  {
  }

  /**
   * A Ruby symbol, which names both table keys and methods: an option name,
   * any other identifier, or the writer name `base=` of another symbol.
   * Every symbol has exactly one such form.
   */
  datatype Key = Known(attr: Attribute) | Other(id: Identifier) | Assign(base: Key)

  /** `k.to_s` */
  function Text(k: Key): string {
    match k
    case Known(a) => Name(a)
    case Other(id) => id
    case Assign(b) => Text(b) + "="
  }

  /**
   * `name.to_s.end_with?("=")` (lib/pry/config.rb:67) holds exactly of the
   * writer names, and `name.to_s[0..-2].to_sym` (lib/pry/config.rb:68) is their base.
   */
  lemma SetterText(k: Key)
    ensures var t := Text(k); k.Assign? <==> |t| > 0 && t[|t| - 1] == '='
    ensures k.Assign? ==> Text(k)[..|Text(k)| - 1] == Text(k.base)
  {
    match k
    case Known(a) => NoNameEndsInAssign(a);
    case Other(id) =>
    case Assign(b) => assert (Text(b) + "=")[..|Text(b)|] == Text(b);
  }

  /** Each symbol has exactly one form: two keys with the same text are the same key. */
  lemma {:induction false} TextInjective(k1: Key, k2: Key)
    ensures Text(k1) == Text(k2) ==> k1 == k2
  {
    if Text(k1) == Text(k2) {
      SetterText(k1);
      SetterText(k2);
      match k1
      case Known(a) =>
        match k2 {
          case Known(b) => NameInjective(a, b);
          case Other(id) => OptionNamesAreNames(a, id);
          case Assign(_) =>
        }
      case Other(id) =>
        match k2 {
          case Known(b) => OptionNamesAreNames(b, id);
          case Other(_) =>
          case Assign(_) =>
        }
      case Assign(b1) =>
        match k2 {
          case Known(_) =>
          case Other(_) =>
          case Assign(b2) => TextInjective(b1, b2);
        }
    }
  }
}
