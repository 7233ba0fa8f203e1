/**
 * What one call to the store does: the two stores that readers, writers and
 * `[]` use, the three branches of `method_missing`, the `hooks=` shim and
 * `merge!`.
 */
module StoreProperties {
  import opened Wrappers
  import opened Names
  import opened Values
  import opened Defaults
  import opened Store

  /** Names of options are not the names of the store's own methods, nor `quiet?`. */
  lemma AttributeNamesAreNotMethods(a: Attribute)
    ensures !IsOwnMethod(Known(a)) && !IsOwnMethod(Assign(Known(a)))
  {
  }

  /** A reader returns `@a` and never looks at the table, whatever the table holds. */
  lemma ReaderIgnoresTable(s: ConfigState, a: Attribute, t: map<Key, Value>)
    ensures !IsOwnMethod(Known(a))
    ensures Send(s.(lookup := t), Known(a), []) == Step(Ok(Ivar(s.ivars, a)), s.(lookup := t))
  {
  }

  /** A reader given arguments raises ArgumentError and changes nothing. */
  lemma ReaderTakesNoArguments(s: ConfigState, a: Attribute, args: seq<Value>)
    requires |args| > 0
    ensures !IsOwnMethod(Known(a))
    ensures Send(s, Known(a), args) == Step(Err(ArgumentError(|args|, 0)), s)
  {
  }

  /** `quiet?` answers what `quiet` answers. */
  lemma QuietAliasReadsQuiet(s: ConfigState, args: seq<Value>)
    ensures !IsOwnMethod(QuietAlias)
    ensures Send(s, QuietAlias, args) == Send(s, Known(Quiet), args)
  {
  }

  /**
   * An option writer (other than `hooks=`) sets `@a` only: the table, and so
   * `cfg[:a]`, is exactly as before, and the reader now gives the new value.
   */
  lemma WriterLeavesTable(s: ConfigState, a: Attribute, v: Value)
    requires a != Hooks
    ensures !IsOwnMethod(Assign(Known(a)))
    ensures var st := Send(s, Assign(Known(a)), [v]);
      st.result == Ok(v) && st.state.lookup == s.lookup && st.state.warnings == s.warnings
      && st.state.ivars == WithIvar(s.ivars, a, v)
    ensures var st := Send(s, Assign(Known(a)), [v]);
      Send(st.state, Known(a), []).result == Ok(v)
      && Index(st.state.lookup, Known(a)) == Index(s.lookup, Known(a))
  {
  }

  /** An option writer needs exactly one argument; otherwise ArgumentError, and nothing changes. */
  lemma WriterTakesOneArgument(s: ConfigState, a: Attribute, args: seq<Value>)
    requires |args| != 1
    ensures !IsOwnMethod(Assign(Known(a)))
    ensures Send(s, Assign(Known(a)), args) == Step(Err(ArgumentError(|args|, 1)), s)
  {
  }

  /**
   * The two stores of a new store disagree: `cfg[:a]` gives the merged table's
   * entry, the option or the unevaluated default, while the reader `cfg.a`
   * gives nil.
   */
  lemma FreshReaderIsNil(options: map<Key, Value>, a: Attribute)
    ensures var s := ConfigState(Seed(options), FreshIvars, 0);
      Send(s, Known(a), []).result == Ok(Nil)
      && Index(s.lookup, Known(a)) == (if Known(a) in options then options[Known(a)] else DefaultProc(a))
  {
    FreshIvarsAreNil(a);
  }

  /** What the table holds under a name Send hands to `method_missing` is returned as stored. */
  lemma MissingReadsTable(s: ConfigState, name: Key, args: seq<Value>)
    requires ReachesMethodMissing(name) && name in s.lookup
    ensures Send(s, name, args) == Step(Ok(s.lookup[name]), s)
  {
    match name
    case Other(_) =>
    case Assign(b) =>
  }

  /**
   * A writer name not in the table stores the first argument (nil when there
   * is none) under the name without `=`; nothing else changes.
   */
  lemma MissingWritesTable(s: ConfigState, name: Key, args: seq<Value>)
    requires ReachesMethodMissing(name) && name.Assign? && name !in s.lookup
    ensures var st := Send(s, name, args);
      st.result == Ok(FirstArg(args))
      && st.state == s.(lookup := s.lookup[name.base := FirstArg(args)])
    ensures forall k :: k != name.base ==> Index(Send(s, name, args).state.lookup, k) == Index(s.lookup, k)
  {
    match name
    case Assign(b) =>
  }

  /** Any other name raises NoMethodError from `super`, and nothing changes. */
  lemma MissingRaises(s: ConfigState, name: Key, args: seq<Value>)
    requires ReachesMethodMissing(name) && !name.Assign? && name !in s.lookup
    ensures Send(s, name, args) == Step(Err(NoMethodError(name)), s)
  {
    match name
    case Other(_) =>
  }

  /**
   * `method_missing` raises exactly when the name is neither in the table nor
   * a writer name, and changes the state exactly when it writes.
   */
  lemma MethodMissingOutcome(s: ConfigState, name: Key, args: seq<Value>)
    ensures MethodMissing(s, name, args).result.Err? <==> name !in s.lookup && !name.Assign?
    ensures MethodMissing(s, name, args).state != s ==> name !in s.lookup && name.Assign?
    ensures MethodMissing(s, name, args).result.Err? ==>
      MethodMissing(s, name, args).result.error == NoMethodError(name)
  {
  }

  /**
   * The bag writer and the reader of a name unknown to the class go through
   * the table: unless the table holds `x=` itself, `cfg.x = v` then `cfg.x`
   * gives `v`, and `cfg[:x]` does too.
   */
  lemma WriteThenReadThroughTable(s: ConfigState, id: Identifier, v: Value)
    requires ReachesMethodMissing(Other(id)) && ReachesMethodMissing(Assign(Other(id)))
    requires Assign(Other(id)) !in s.lookup
    ensures var s1 := Send(s, Assign(Other(id)), [v]).state;
      Send(s1, Other(id), []) == Step(Ok(v), s1) && Index(s1.lookup, Other(id)) == v
  {
    var s1 := Send(s, Assign(Other(id)), [v]).state;
    MissingWritesTable(s, Assign(Other(id)), [v]);
    MissingReadsTable(s1, Other(id), []);
  }

  /**
   * The shadowing quirk: once the table holds the writer name itself (say
   * `"gist="`), a call of `x=` by name, such as `cfg.public_send(:x=, v)`,
   * returns that entry and writes nothing.  (The assignment expression
   * `cfg.x = v` still evaluates to `v`, whatever the writer returns.)
   */
  lemma StoredWriterNameShadowsWrite(s: ConfigState, id: Identifier, v: Value)
    requires ReachesMethodMissing(Assign(Other(id))) && Assign(Other(id)) in s.lookup
    ensures Send(s, Assign(Other(id)), [v]) == Step(Ok(s.lookup[Assign(Other(id))]), s)
  {
    MissingReadsTable(s, Assign(Other(id)), [v]);
  }

  /**
   * `hooks=`: a Hash becomes the Pry::Hooks object built from it, after
   * exactly one warning; any other value is stored as given and no warning is
   * printed.  The value lands in `@hooks`, so the reader sees it and the
   * table does not change.
   */
  lemma HooksWriterShim(s: ConfigState, v: Value)
    ensures !IsOwnMethod(Assign(Known(Hooks)))
    ensures var st := Send(s, Assign(Known(Hooks)), [v]);
      var stored := if v.Hash? then HooksFromHash(v.entries) else v;
      st.result == Ok(stored)
      && st.state.lookup == s.lookup
      && st.state.ivars == WithIvar(s.ivars, Hooks, stored)
      && st.state.warnings == s.warnings + (if v.Hash? then 1 else 0)
    ensures var st := Send(s, Assign(Known(Hooks)), [v]);
      var r := Send(st.state, Known(Hooks), []).result;
      r.Ok? && (v.Hash? ==> !r.value.Hash? && r.value == HooksObject(v.entries))
  {
  }

  /**
   * `cfg[key] = v` (lib/pry/config.rb:60-62) then `cfg[key]` gives `v`; other
   * keys are unchanged, and one never stored reads as nil rather than raising.
   */
  lemma IndexAfterStore(lookup: map<Key, Value>, key: Key, other: Key, v: Value)
    ensures Index(lookup[key := v], key) == v
    ensures other != key ==> Index(lookup[key := v], other) == Index(lookup, other)
    ensures other != key && other !in lookup ==> Index(lookup[key := v], other) == Nil
    ensures other in lookup ==> other in lookup[key := v]
  {
  }

  /**
   * No call removes an option name from the table: `method_missing` only adds
   * entries, and the generated accessors and `hooks=` leave the table alone.
   */
  lemma KnownKeysStay(s: ConfigState, name: Key, args: seq<Value>, a: Attribute)
    requires !IsOwnMethod(name) && Known(a) in s.lookup
    ensures Known(a) in Send(s, name, args).state.lookup
  {
  }
}
