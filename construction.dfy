/**
 * What `Pry::Config.new(options)` (lib/pry/config.rb:48-54) builds: one lemma
 * per bootstrap routine, then when construction succeeds and what the new
 * store holds.
 */
module Construction {
  import opened Wrappers
  import opened Names
  import opened Values
  import opened Defaults
  import opened Store

  /** The bag keys are distinct and all reach `method_missing`, readers and writers. */
  lemma BagKeysAreMissing()
    ensures GistKey != HistoryKey && GistKey != LsKey && HistoryKey != LsKey
    ensures ReachesMethodMissing(GistKey) && ReachesMethodMissing(Assign(GistKey))
    ensures ReachesMethodMissing(HistoryKey) && ReachesMethodMissing(Assign(HistoryKey))
    ensures ReachesMethodMissing(Assign(LsKey))
    ensures ShouldSaveField != ShouldLoadField && ShouldSaveField != FileField && ShouldLoadField != FileField
  {
  }

  /**
   * What Send does with each call the bootstrap routines make: the bag
   * readers and writers reach `method_missing`, and `self.should_load_rc =`
   * reaches the generated writer.
   */
  lemma BootstrapSendsResolve(s: ConfigState, args: seq<Value>, v: Value)
    ensures !IsOwnMethod(GistKey) && Send(s, GistKey, args) == MethodMissing(s, GistKey, args)
    ensures !IsOwnMethod(Assign(GistKey)) && Send(s, Assign(GistKey), args) == MethodMissing(s, Assign(GistKey), args)
    ensures !IsOwnMethod(HistoryKey) && Send(s, HistoryKey, args) == MethodMissing(s, HistoryKey, args)
    ensures !IsOwnMethod(Assign(HistoryKey)) && Send(s, Assign(HistoryKey), args) == MethodMissing(s, Assign(HistoryKey), args)
    ensures !IsOwnMethod(Assign(LsKey)) && Send(s, Assign(LsKey), args) == MethodMissing(s, Assign(LsKey), args)
    ensures !IsOwnMethod(Assign(Known(ShouldLoadRc)))
    ensures Send(s, Assign(Known(ShouldLoadRc)), [v]) == WriteIvar(s, ShouldLoadRc, v)
  {
    BagKeysAreMissing();
  }

  /** `gist` can be configured unless `gist=` is in the table and `gist` is not an OpenStruct there. */
  predicate GistConfigurable(t: map<Key, Value>) {
    Assign(GistKey) !in t || (GistKey in t && t[GistKey].Bag?)
  }

  /** The OpenStruct `configure_gist` ends up changing. */
  function GistBase(t: map<Key, Value>): map<string, Value>
    requires GistConfigurable(t)
  {
    if Assign(GistKey) in t then t[GistKey].fields else map[]
  }

  /**
   * `history` can be configured when it is in the table and is an OpenStruct,
   * or is falsy and `history=` is not in the table to shadow the write.
   */
  predicate HistoryConfigurable(t: map<Key, Value>) {
    HistoryKey in t && (t[HistoryKey].Bag? || (!Truthy(t[HistoryKey]) && Assign(HistoryKey) !in t))
  }

  /** The OpenStruct `configure_history` ends up changing. */
  function HistoryBase(t: map<Key, Value>): map<string, Value>
    requires HistoryConfigurable(t)
  {
    if t[HistoryKey].Bag? then t[HistoryKey].fields else map[]
  }

  /** The history fields after `configure_history`: saving and loading are on exactly when a path was found. */
  function HistoryFields(base: map<string, Value>, home: Option<string>): map<string, Value> {
    base[ShouldSaveField := Bool(home.Some?)][ShouldLoadField := Bool(home.Some?)][FileField := PathValue(home)]
  }

  /**
   * `configure_gist`: when it succeeds, and the one entry it changes.  When
   * `gist=` shadows the write and there is no `gist`, the bare read on line 118
   * raises NameError.
   */
  lemma GistStep(s: ConfigState)
    ensures ConfigureGist(s).Ok? <==> GistConfigurable(s.lookup)
    ensures Assign(GistKey) in s.lookup && GistKey !in s.lookup ==> ConfigureGist(s) == Err(NameError(GistKey))
    ensures ConfigureGist(s).Ok? ==>
      ConfigureGist(s).value
        == s.(lookup := s.lookup[GistKey := Bag(GistBase(s.lookup)[InspecterField := PrettyInspect])])
  {
    BagKeysAreMissing();
  }

  /**
   * `bag.field = v` with a receiver-less `bag`: raises NameError from `super`
   * when `bag` is not in the table; fails when it is not an OpenStruct; otherwise sets that one field.
   */
  lemma UpdateFieldStep(s: ConfigState, bag: Key, field: Identifier, v: Value)
    requires bag == GistKey || bag == HistoryKey
    ensures bag !in s.lookup ==> UpdateField(s, bag, field, v) == Err(NameError(bag))
    ensures UpdateField(s, bag, field, v).Ok? <==> bag in s.lookup && s.lookup[bag].Bag?
    ensures UpdateField(s, bag, field, v).Ok? ==>
      UpdateField(s, bag, field, v).value == s.(lookup := s.lookup[bag := Bag(s.lookup[bag].fields[field := v])])
  {
    BagKeysAreMissing();
  }

  /** Lines 123-125 on a table whose `history` is an OpenStruct: three fields set. */
  lemma EnableHistoryStep(s: ConfigState, home: Option<string>)
    requires HistoryKey in s.lookup && s.lookup[HistoryKey].Bag?
    ensures EnableHistory(s, home) == Ok(s.(lookup := s.lookup[HistoryKey := Bag(
      s.lookup[HistoryKey].fields[ShouldSaveField := Bool(true)][ShouldLoadField := Bool(true)][FileField := PathValue(home)])]))
  {
    var f := s.lookup[HistoryKey].fields;
    UpdateFieldStep(s, HistoryKey, ShouldSaveField, Bool(true));
    var s1 := s.(lookup := s.lookup[HistoryKey := Bag(f[ShouldSaveField := Bool(true)])]);
    assert UpdateField(s, HistoryKey, ShouldSaveField, Bool(true)) == Ok(s1);
    UpdateFieldStep(s1, HistoryKey, ShouldLoadField, Bool(true));
    var s2 := s.(lookup := s.lookup[HistoryKey := Bag(f[ShouldSaveField := Bool(true)][ShouldLoadField := Bool(true)])]);
    assert s1.lookup[HistoryKey := Bag(f[ShouldSaveField := Bool(true)][ShouldLoadField := Bool(true)])] == s2.lookup;
    assert UpdateField(s1, HistoryKey, ShouldLoadField, Bool(true)) == Ok(s2);
    UpdateFieldStep(s2, HistoryKey, FileField, PathValue(home));
    var f3 := f[ShouldSaveField := Bool(true)][ShouldLoadField := Bool(true)][FileField := PathValue(home)];
    assert s2.lookup[HistoryKey := Bag(f3)] == s.lookup[HistoryKey := Bag(f3)];
  }

  /** Lines 127-129 on a table whose `history` is an OpenStruct: `@should_load_rc` false, two fields false. */
  lemma DisableHistoryStep(s: ConfigState)
    requires HistoryKey in s.lookup && s.lookup[HistoryKey].Bag?
    ensures DisableHistory(s) == Ok(s.(
      lookup := s.lookup[HistoryKey := Bag(s.lookup[HistoryKey].fields[ShouldSaveField := Bool(false)][ShouldLoadField := Bool(false)])],
      ivars := WithIvar(s.ivars, ShouldLoadRc, Bool(false))))
  {
    var f := s.lookup[HistoryKey].fields;
    var s1 := s.(ivars := WithIvar(s.ivars, ShouldLoadRc, Bool(false)));
    UpdateFieldStep(s1, HistoryKey, ShouldSaveField, Bool(false));
    var s2 := s1.(lookup := s.lookup[HistoryKey := Bag(f[ShouldSaveField := Bool(false)])]);
    assert UpdateField(s1, HistoryKey, ShouldSaveField, Bool(false)) == Ok(s2);
    UpdateFieldStep(s2, HistoryKey, ShouldLoadField, Bool(false));
    var f2 := f[ShouldSaveField := Bool(false)][ShouldLoadField := Bool(false)];
    assert s2.lookup[HistoryKey := Bag(f2)] == s.lookup[HistoryKey := Bag(f2)];
  }

  /** Lines 123-130: on an OpenStruct `history`, the fields HistoryFields gives, and `@should_load_rc` false without a path. */
  lemma FillHistoryStep(s: ConfigState, home: Option<string>)
    requires HistoryKey in s.lookup
    ensures FillHistory(s, home).Ok? <==> s.lookup[HistoryKey].Bag?
    ensures FillHistory(s, home).Ok? ==>
      FillHistory(s, home).value == s.(
        lookup := s.lookup[HistoryKey := Bag(HistoryFields(s.lookup[HistoryKey].fields, home))],
        ivars := if home.None? then WithIvar(s.ivars, ShouldLoadRc, Bool(false)) else s.ivars)
  {
    BagKeysAreMissing();
    UpdateFieldStep(s, HistoryKey, ShouldSaveField, Bool(true));
    if !s.lookup[HistoryKey].Bag? {
      return;
    }
    var base := s.lookup[HistoryKey].fields;
    EnableHistoryStep(s, home);
    var full := base[ShouldSaveField := Bool(true)][ShouldLoadField := Bool(true)][FileField := PathValue(home)];
    var s1 := s.(lookup := s.lookup[HistoryKey := Bag(full)]);
    assert BareRead(s1, HistoryKey) == Ok(Bag(full));
    if home.Some? {
      assert full == HistoryFields(base, home);
    } else {
      DisableHistoryStep(s1);
      assert full[ShouldSaveField := Bool(false)][ShouldLoadField := Bool(false)] == HistoryFields(base, home);
    }
  }

  /** `configure_history`: when it succeeds, how it fails without `history`, and what it changes. */
  lemma HistoryStep(s: ConfigState, home: Option<string>)
    ensures HistoryKey !in s.lookup ==> ConfigureHistory(s, home) == Err(NoMethodError(HistoryKey))
    ensures ConfigureHistory(s, home).Ok? <==> HistoryConfigurable(s.lookup)
    ensures ConfigureHistory(s, home).Ok? ==>
      ConfigureHistory(s, home).value == s.(
        lookup := s.lookup[HistoryKey := Bag(HistoryFields(HistoryBase(s.lookup), home))],
        ivars := if home.None? then WithIvar(s.ivars, ShouldLoadRc, Bool(false)) else s.ivars)
  {
    BagKeysAreMissing();
    if HistoryKey !in s.lookup {
      return;
    }
    var current := s.lookup[HistoryKey];
    var s1 := if Truthy(current) then s else MethodMissing(s, Assign(HistoryKey), [Bag(map[])]).state;
    assert s1 == if Truthy(current) || Assign(HistoryKey) in s.lookup then s
                 else s.(lookup := s.lookup[HistoryKey := Bag(map[])]);
    FillHistoryStep(s1, home);
    if s1.lookup[HistoryKey].Bag? {
      var fields := HistoryFields(s1.lookup[HistoryKey].fields, home);
      assert s1.lookup[HistoryKey := Bag(fields)] == s.lookup[HistoryKey := Bag(fields)];
    }
  }

  /** `configure_ls`: stores the colour table, unless `ls=` is in the table to shadow the write. */
  lemma LsStep(s: ConfigState)
    ensures ConfigureLs(s)
      == if Assign(LsKey) in s.lookup then s else s.(lookup := s.lookup[LsKey := Bag(LsTable)])
  {
    BagKeysAreMissing();
  }

  /** The table a successful `new` leaves: the seed with the three bags configured. */
  function BuiltTable(options: map<Key, Value>, home: Option<string>): map<Key, Value>
    requires GistConfigurable(options) && HistoryConfigurable(options)
  {
    var t := Seed(options)[GistKey := Bag(GistBase(options)[InspecterField := PrettyInspect])]
                          [HistoryKey := Bag(HistoryFields(HistoryBase(options), home))];
    if Assign(LsKey) in options then t else t[LsKey := Bag(LsTable)]
  }

  /** The instance variables a successful `new` leaves: all nil but `@should_load_rc` when no path was found. */
  function BuiltIvars(home: Option<string>): Ivars {
    if home.None? then WithIvar(FreshIvars, ShouldLoadRc, Bool(false)) else FreshIvars
  }

  /** The seed agrees with the options on every key that is not an option name. */
  lemma SeedOnBagKeys(options: map<Key, Value>, k: Key)
    requires !k.Known?
    ensures k in Seed(options) <==> k in options
    ensures k in options ==> Seed(options)[k] == options[k]
  {
  }

  /** So `gist` can be configured on the seed exactly when on the options, from the same OpenStruct. */
  lemma SeedGist(options: map<Key, Value>)
    ensures GistConfigurable(Seed(options)) <==> GistConfigurable(options)
    ensures GistConfigurable(options) ==> GistBase(Seed(options)) == GistBase(options)
  {
    SeedOnBagKeys(options, GistKey);
    SeedOnBagKeys(options, Assign(GistKey));
  }

  /** And `history` likewise, once `gist` has been written. */
  lemma SeedHistory(options: map<Key, Value>, g: Value)
    ensures var t := Seed(options)[GistKey := g];
      (HistoryConfigurable(t) <==> HistoryConfigurable(options))
      && (HistoryConfigurable(options) ==> HistoryBase(t) == HistoryBase(options))
      && (Assign(LsKey) in t <==> Assign(LsKey) in options)
  {
    BagKeysAreMissing();
    SeedOnBagKeys(options, HistoryKey);
    SeedOnBagKeys(options, Assign(HistoryKey));
    SeedOnBagKeys(options, Assign(LsKey));
  }

  /**
   * `Pry::Config.new(options)` succeeds exactly when `gist` and `history` can
   * be configured from the options, and then leaves exactly BuiltTable,
   * BuiltIvars and no warning.
   */
  lemma ConstructOutcome(options: map<Key, Value>, home: Option<string>)
    ensures Construct(options, home).Ok? <==> GistConfigurable(options) && HistoryConfigurable(options)
    ensures Construct(options, home).Ok? ==>
      Construct(options, home).value == ConfigState(BuiltTable(options, home), BuiltIvars(home), 0)
  {
    var s0 := ConfigState(Seed(options), FreshIvars, 0);
    SeedGist(options);
    GistStep(s0);
    if !GistConfigurable(options) {
      return;
    }
    var g := Bag(GistBase(options)[InspecterField := PrettyInspect]);
    var s1 := ConfigState(Seed(options)[GistKey := g], FreshIvars, 0);
    assert ConfigureGist(s0) == Ok(s1);
    SeedHistory(options, g);
    HistoryStep(s1, home);
    if !HistoryConfigurable(options) {
      return;
    }
    var s2 := ConfigState(Seed(options)[GistKey := g][HistoryKey := Bag(HistoryFields(HistoryBase(options), home))],
                          BuiltIvars(home), 0);
    assert ConfigureHistory(s1, home) == Ok(s2);
    LsStep(s2);
  }

  /** Reading the history fields back. */
  lemma HistoryFieldsRead(base: map<string, Value>, home: Option<string>)
    ensures GetField(Bag(HistoryFields(base, home)), ShouldSaveField) == Ok(Bool(home.Some?))
    ensures GetField(Bag(HistoryFields(base, home)), ShouldLoadField) == Ok(Bool(home.Some?))
    ensures GetField(Bag(HistoryFields(base, home)), FileField) == Ok(PathValue(home))
  {
    BagKeysAreMissing();
  }

  /** Without `:history` among the options, `new` raises; NoMethodError for `history` when `gist` is fine. */
  lemma ConstructFailsWithoutHistory(options: map<Key, Value>, home: Option<string>)
    requires HistoryKey !in options
    ensures Construct(options, home).Err?
    ensures GistConfigurable(options) ==> Construct(options, home) == Err(NoMethodError(HistoryKey))
  {
    ConstructOutcome(options, home);
    var s0 := ConfigState(Seed(options), FreshIvars, 0);
    BagKeysAreMissing();
    SeedOnBagKeys(options, GistKey);
    SeedOnBagKeys(options, Assign(GistKey));
    SeedOnBagKeys(options, HistoryKey);
    GistStep(s0);
    if GistConfigurable(options) {
      HistoryStep(ConfigureGist(s0).value, home);
    }
  }

  /** So `Pry::Config.new` with no options raises. */
  lemma DefaultConstructionRaises(home: Option<string>)
    ensures Construct(map[], home) == Err(NoMethodError(HistoryKey))
  {
    ConstructFailsWithoutHistory(map[], home);
  }

  /**
   * With `gist=` among the options but not `gist`, the write on line 117 is a
   * read, and the receiver-less `gist` on line 118 raises NameError.
   */
  lemma ShadowedGistRaises(options: map<Key, Value>, home: Option<string>)
    requires Assign(GistKey) in options && GistKey !in options
    ensures Construct(options, home) == Err(NameError(GistKey))
  {
    BagKeysAreMissing();
    SeedOnBagKeys(options, GistKey);
    SeedOnBagKeys(options, Assign(GistKey));
    GistStep(ConfigState(Seed(options), FreshIvars, 0));
  }

  /** `history: nil` is enough for `new` to succeed, and the history bag is then new. */
  lemma NilHistorySuffices(home: Option<string>)
    ensures GistConfigurable(map[HistoryKey := Nil]) && HistoryConfigurable(map[HistoryKey := Nil])
    ensures BuiltTable(map[HistoryKey := Nil], home)[HistoryKey] == Bag(HistoryFields(map[], home))
  {
    BagKeysAreMissing();
  }

  /**
   * The history bag `new` builds: saving and loading are on exactly when a
   * path was found, and the path is stored.
   */
  lemma BuiltHistory(options: map<Key, Value>, home: Option<string>)
    requires GistConfigurable(options) && HistoryConfigurable(options)
    ensures var t := BuiltTable(options, home);
      HistoryKey in t && t[HistoryKey].Bag?
      && GetField(t[HistoryKey], ShouldSaveField) == Ok(Bool(home.Some?))
      && GetField(t[HistoryKey], ShouldLoadField) == Ok(Bool(home.Some?))
      && GetField(t[HistoryKey], FileField) == Ok(PathValue(home))
  {
    var t := BuiltTable(options, home);
    assert HistoryKey != LsKey by { BagKeysAreMissing(); }
    assert t[HistoryKey] == Bag(HistoryFields(HistoryBase(options), home));
    HistoryFieldsRead(HistoryBase(options), home);
  }

  /**
   * `@should_load_rc` after `new` is false exactly when no path was found, and
   * nil otherwise; the table's `should_load_rc` entry is untouched
   * (BuiltKeepsOptionEntries).
   */
  lemma BuiltShouldLoadRc(options: map<Key, Value>, home: Option<string>)
    requires GistConfigurable(options) && HistoryConfigurable(options)
    ensures Ivar(BuiltIvars(home), ShouldLoadRc) == (if home.None? then Bool(false) else Nil)
  {
  }

  /** The `gist` bag `new` builds holds `inspecter`; `ls` holds the colour table unless `ls=` shadowed the write. */
  lemma BuiltGistAndLs(options: map<Key, Value>, home: Option<string>)
    requires GistConfigurable(options) && HistoryConfigurable(options)
    ensures var t := BuiltTable(options, home);
      GistKey in t && GetField(t[GistKey], InspecterField) == Ok(PrettyInspect)
    ensures Assign(GistKey) !in options ==>
      BuiltTable(options, home)[GistKey] == Bag(map[InspecterField := PrettyInspect])
    ensures Assign(LsKey) !in options ==> BuiltTable(options, home)[LsKey] == Bag(LsTable)
  {
    BagKeysAreMissing();
  }

  /** Every option name is a key of the table `new` builds, even one given as nil. */
  lemma BuiltHasOptionKeys(options: map<Key, Value>, home: Option<string>, a: Attribute)
    requires GistConfigurable(options) && HistoryConfigurable(options)
    ensures Known(a) in BuiltTable(options, home)
  {
    assert Known(a) in Seed(options);
  }

  /** The bootstrap routines leave the option names' entries as the seed had them. */
  lemma BuiltKeepsOptionEntries(options: map<Key, Value>, home: Option<string>, a: Attribute)
    requires GistConfigurable(options) && HistoryConfigurable(options)
    ensures Index(BuiltTable(options, home), Known(a)) == Index(Seed(options), Known(a))
  {
  }

  /** The seed's entry for an option name: the option when given, else the unevaluated default proc. */
  lemma SeedOptionEntry(options: map<Key, Value>, a: Attribute)
    ensures Index(Seed(options), Known(a)) == (if Known(a) in options then options[Known(a)] else DefaultProc(a))
  {
  }

  /** In the table `new` builds, `cfg[:a]` gives the option or, unevaluated, the default. */
  lemma BuiltOptions(options: map<Key, Value>, home: Option<string>, a: Attribute)
    requires GistConfigurable(options) && HistoryConfigurable(options)
    ensures Index(BuiltTable(options, home), Known(a))
      == (if Known(a) in options then options[Known(a)] else DefaultProc(a))
  {
    BuiltKeepsOptionEntries(options, home, a);
    SeedOptionEntry(options, a);
  }

  /** While the reader `cfg.a` gives nil, or false for `should_load_rc` when no path was found. */
  lemma BuiltReaders(t: map<Key, Value>, home: Option<string>, a: Attribute)
    ensures !IsOwnMethod(Known(a))
    ensures Send(ConfigState(t, BuiltIvars(home), 0), Known(a), []).result
      == Ok(if a == ShouldLoadRc && home.None? then Bool(false) else Nil)
  {
    FreshIvarsAreNil(a);
  }
}
