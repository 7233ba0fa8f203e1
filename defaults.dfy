/** The constant tables of lib/pry/config.rb: DEFAULT_STATE and the `ls` colours. */
module Defaults {
  import opened Names
  import opened Values

  /** The keys of DEFAULT_STATE (lib/pry/config.rb:4-35). */
  const AllAttributes: set<Attribute> := {
    Input, Output, Commands, PromptName, Prompt, PromptSafeObjects, Print, Quiet,
    ExceptionHandler, ExceptionWhitelist, Hooks, Pager, System, Color, DefaultWindowSize,
    Editor, ShouldLoadRc, ShouldLoadLocalRc, ShouldTrapInterrupts, DisableAutoReload,
    CommandPrefix, AutoIndent, CorrectIndent, CollisionWarning, OutputPrefix, Requires,
    ShouldLoadRequires, ShouldLoadPlugins, ControlDHandler, MemorySize, ExtraStickyLocals,
    Completer}

  lemma EveryAttribute(a: Attribute)
    ensures a in AllAttributes
  {
  }

  /**
   * DEFAULT_STATE (lib/pry/config.rb:3-42): each option name mapped to its
   * default proc.  The procs are stored and handed out unevaluated; nothing in
   * the store calls them, so each is the token `DefaultProc(a)`.
   */
  const DefaultState: map<Key, Value> :=
    map k | k in (set a | a in AllAttributes :: Known(a)) :: DefaultProc(k.attr)

  /** DEFAULT_STATE has exactly the option names as keys, each bound to its own proc. */
  lemma DefaultStateShape()
    ensures forall a: Attribute :: Known(a) in DefaultState && DefaultState[Known(a)] == DefaultProc(a)
    ensures forall k :: k in DefaultState ==> k.Known?
  {
    forall a: Attribute
      ensures Known(a) in DefaultState
    {
      EveryAttribute(a);
    }
  }

  /** The fields of the OpenStruct `configure_ls` stores under :ls (lib/pry/config.rb:93-112). */
  const LsTable: map<string, Value> := map[
    "heading_color" := Sym("bright_blue"),
    "public_method_color" := Sym("default"),
    "private_method_color" := Sym("blue"),
    "protected_method_color" := Sym("blue"),
    "method_missing_color" := Sym("bright_red"),
    "local_var_color" := Sym("yellow"),
    "pry_var_color" := Sym("default"),
    "instance_var_color" := Sym("blue"),
    "class_var_color" := Sym("bright_blue"),
    "global_var_color" := Sym("default"),
    "builtin_global_color" := Sym("cyan"),
    "pseudo_global_color" := Sym("cyan"),
    "constant_color" := Sym("default"),
    "class_constant_color" := Sym("blue"),
    "exception_constant_color" := Sym("magenta"),
    "unloaded_constant_color" := Sym("yellow"),
    "separator" := Str("  "),
    "ceiling" := List([Const("Object"), Const("Module"), Const("Class")])]

}
