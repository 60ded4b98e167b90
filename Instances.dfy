/**
 * Instances of user classes: a mutable map of fields, and property lookup
 * that tries the fields, then the class's methods, then raises an error.
 * Field values and methods are left abstract (`V` and `M`).
 */
module Instances {
  import opened Results
  import Tokens

  /**
   * A class as an instance uses it: its name and its method table. The
   * table stands for `findMethod`, whatever lookup (such as a walk up the
   * superclass chain) that performs.
   */
  datatype RoundTableClass<M> = RoundTableClass(name: string, methods: map<string, M>)

  /** `findMethod`: the method of that name, if the class has one. */
  function FindMethod<M>(klass: RoundTableClass<M>, name: string): Option<M>
  {
    if name in klass.methods then Some(klass.methods[name]) else None
  }

  /** What `get` hands back: a field's value, or a method exactly as the class holds it. */
  datatype Property<V, M> = Field(value: V) | UnboundMethod(fn: M)

  /** A runtime error: the offending token and the message. */
  datatype RuntimeError = RuntimeError(token: Tokens.Token, message: string)

  /** The result of `get(name)` on an instance with these fields and this class. */
  function GetProperty<V, M>(fields: map<string, V>, klass: RoundTableClass<M>, name: Tokens.Token)
    : Result<Property<V, M>, RuntimeError>
  {
    if name.lexeme in fields then Ok(Field(fields[name.lexeme]))
    else match FindMethod(klass, name.lexeme)
      case Some(m) => Ok(UnboundMethod(m))
      case None => Err(RuntimeError(name, "Undefined property '" + name.lexeme + "'."))
  }

  class RoundTableInstance<V, M> {
    var klass: RoundTableClass<M>
    var fields: map<string, V>

    constructor (klass: RoundTableClass<M>)
      ensures this.klass == klass && fields == map[]
    {
      this.klass := klass;
      fields := map[];
    }

    /** `get`: reads the fields and the class, changes nothing. */
    method Get(name: Tokens.Token) returns (r: Result<Property<V, M>, RuntimeError>)
      ensures r == GetProperty(fields, klass, name)
    {
      r := GetProperty(fields, klass, name);
    }

    /** `set`: puts or overwrites the one field named by the token. */
    method Set(name: Tokens.Token, value: V)
      modifies this`fields
      ensures fields == old(fields)[name.lexeme := value]
      ensures klass == old(klass)
      ensures old(fields).Keys <= fields.Keys
    {
      fields := fields[name.lexeme := value];
    }
  }

  /** A field shadows a method of the same name. */
  lemma FieldShadowsMethod<V, M>(fields: map<string, V>, klass: RoundTableClass<M>, name: Tokens.Token)
    requires name.lexeme in fields
    ensures GetProperty(fields, klass, name) == Ok(Field(fields[name.lexeme]))
  {
  }

  /** Without such a field, the class's method is returned as it is, not bound to the instance. */
  lemma MethodReturnedUnbound<V, M>(fields: map<string, V>, klass: RoundTableClass<M>, name: Tokens.Token)
    requires name.lexeme !in fields && name.lexeme in klass.methods
    ensures GetProperty(fields, klass, name) == Ok(UnboundMethod(klass.methods[name.lexeme]))
  {
  }

  /** Neither a field nor a method: an "Undefined property" error on the name's token. */
  lemma UndefinedProperty<V, M>(fields: map<string, V>, klass: RoundTableClass<M>, name: Tokens.Token)
    requires name.lexeme !in fields && name.lexeme !in klass.methods
    ensures GetProperty(fields, klass, name).Err?
    ensures GetProperty(fields, klass, name).error
         == RuntimeError(name, "Undefined property '" + name.lexeme + "'.")
  {
  }

  /**
   * After `set(name, v)`, a `get` of the same name yields `v`, and a `get` of
   * any other name yields what it did before.
   */
  lemma SetThenGet<V, M>(fields: map<string, V>, klass: RoundTableClass<M>,
                         name: Tokens.Token, value: V, other: Tokens.Token)
    ensures var fields' := fields[name.lexeme := value];
      GetProperty(fields', klass, name) == Ok(Field(value))
      && (other.lexeme == name.lexeme ==> GetProperty(fields', klass, other) == Ok(Field(value)))
      && (other.lexeme != name.lexeme ==> GetProperty(fields', klass, other) == GetProperty(fields, klass, other))
  {
  }
}
