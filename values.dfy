/**
 * The Ruby values the store holds.  Nothing in lib/pry/config.rb inspects a
 * value except to ask whether it is a Hash (`hooks=`), whether it is nil or
 * false (`||=`, `nil?`), and to send an OpenStruct its field readers and
 * writers; every other object is an opaque token.
 */
module Values {
  import opened Wrappers
  import opened Names

  datatype Value =
    | Nil
    | Bool(b: bool)
    | Sym(name: string)                   // a symbol used as data, such as :bright_blue
    | Str(s: string)
    | Const(name: string)                 // a class constant: Object, Module, Class
    | List(items: seq<Value>)
    | Hash(entries: map<Value, Value>)    // a Ruby Hash
    | Bag(fields: map<string, Value>)     // an OpenStruct and the fields set on it
    | DefaultProc(attr: Attribute)        // the unevaluated proc DEFAULT_STATE holds for an option
    | PrettyInspect                       // proc(&:pretty_inspect)
    | HooksObject(source: map<Value, Value>)  // the Pry::Hooks built from a hash
    | Opaque(id: nat)                     // an object that answers none of the messages the store sends

  /**
   * The exceptions the core can raise.  `super` in `method_missing` raises
   * NameError instead of NoMethodError when the call had no receiver and no
   * arguments, as `gist` at lib/pry/config.rb:118 has.
   */
  datatype Error =
    | NoMethodError(selector: Key)
    | NameError(selector: Key)
    | ArgumentError(given: nat, expected: nat)

  type Outcome<T> = Result<T, Error>

  /** Ruby truthiness: only nil and false are false. */
  predicate Truthy(v: Value) {
    v != Nil && v != Bool(false)
  }

  /**
   * `Pry::Hooks.from_hash(h)` (lib/pry/config.rb:84).  That conversion is not
   * part of this model: its result is identified only by the hash it came from.
   */
  function HooksFromHash(h: map<Value, Value>): Value {
    HooksObject(h)
  }

  /**
   * `obj.field`: an OpenStruct answers the field, or nil when it was never
   * set; no other object of the model has such a reader.
   */
  function GetField(obj: Value, field: Identifier): (r: Outcome<Value>)
    ensures r.Ok? <==> obj.Bag?
    ensures r.Err? ==> r.error == NoMethodError(Other(field))
    ensures obj.Bag? && field !in obj.fields ==> r == Ok(Nil)
    ensures obj.Bag? && field in obj.fields ==> r == Ok(obj.fields[field])
  {
    match obj
    case Bag(fields) => Ok(if field in fields then fields[field] else Nil)
    case _ => Err(NoMethodError(Other(field)))
  }

  /** `obj.field = v`: an OpenStruct gains or replaces the field; any other object raises. */
  function SetField(obj: Value, field: Identifier, v: Value): (r: Outcome<Value>)
    ensures r.Ok? <==> obj.Bag?
    ensures r.Err? ==> r.error == NoMethodError(Assign(Other(field)))
  {
    match obj
    case Bag(fields) => Ok(Bag(fields[field := v]))
    case _ => Err(NoMethodError(Assign(Other(field))))
  }

  /** Writing a field of an OpenStruct and reading it back gives the value written; other fields keep theirs. */
  lemma FieldRoundTrip(obj: Value, field: Identifier, other: Identifier, v: Value)
    requires obj.Bag?
    ensures GetField(SetField(obj, field, v).value, field) == Ok(v)
    ensures other != field ==> GetField(SetField(obj, field, v).value, other) == GetField(obj, other)
  {
  }

  /** `File.expand_path("~/.pry_history") rescue nil` (lib/pry/config.rb:125), with the path supplied by the caller. */
  function PathValue(home: Option<string>): (v: Value)
    ensures v == Nil <==> home.None?
    ensures home.Some? ==> v == Str(home.value)
  {
    match home
    case Some(p) => Str(p)
    case None => Nil
  }
}
