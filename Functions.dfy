/**
 * User-defined functions at run time: their arity, binding a method to an
 * instance, and calling them. Environments are a chain of frames, each a
 * finite map from names to values with a reference to its enclosing frame.
 * Running the body is left to the interpreter; its effect is represented by
 * the outcome it reports for the frame the call sets up.
 */
module Functions {
  import Tokens

  /** The identity of an instance. */
  type InstanceId = nat

  /** Runtime values, reduced to what binding and calling involve. */
  datatype Value = Nil | Boolean(b: bool) | Number(text: string) | Str(s: string) | Instance(id: InstanceId)

  /**
   * How executing a body ended: it ran to completion, or it executed
   * `return` carrying a value (the `Return` exception of the interpreter).
   */
  datatype Outcome = Normal | Returned(value: Value)

  /** A function declaration as a call sees it: its name and parameter tokens. */
  datatype FunctionDecl = FunctionDecl(name: Tokens.Token, params: seq<Tokens.Token>)

  /** One frame of the environment chain. */
  class Environment {
    const enclosing: Environment?
    var values: map<string, Value>

    constructor (enclosing: Environment?)
      ensures this.enclosing == enclosing && values == map[]
    {
      this.enclosing := enclosing;
      values := map[];
    }

    /** `define`: binds or rebinds `name` in this frame only. */
    method Define(name: string, value: Value)
      modifies this`values
      ensures values == old(values)[name := value]
    {
      values := values[name := value];
    }

    /** `getAt(0, name)`: the binding in this frame itself, nil when there is none. */
    function GetAtZero(name: string): Value
      reads this
    {
      if name in values then values[name] else Nil
    }
  }

  /**
   * The frame a call sets up: the parameters defined in order, each bound to
   * the argument at its position (a later parameter of the same name
   * overwrites an earlier one).
   */
  function ParameterFrame(params: seq<Tokens.Token>, arguments: seq<Value>): map<string, Value>
    requires |params| <= |arguments|
  {
    if params == [] then map[]
    else ParameterFrame(params[..|params| - 1], arguments)[params[|params| - 1].lexeme := arguments[|params| - 1]]
  }

  /** The frame binds exactly the parameter names. */
  lemma {:induction false} ParameterFrameKeys(params: seq<Tokens.Token>, arguments: seq<Value>)
    requires |params| <= |arguments|
    ensures ParameterFrame(params, arguments).Keys == set p | p in params :: p.lexeme
  {
    if params != [] {
      var init, last := params[..|params| - 1], params[|params| - 1];
      ParameterFrameKeys(init, arguments);
      assert params == init + [last];
      assert (set p | p in params :: p.lexeme) == (set p | p in init :: p.lexeme) + {last.lexeme};
    }
  }

  /** A parameter whose name does not occur again later is bound to the argument at its position. */
  lemma {:induction false} ParameterFrameLastWins(params: seq<Tokens.Token>, arguments: seq<Value>, i: nat)
    requires |params| <= |arguments| && i < |params|
    requires forall j | i < j < |params| :: params[j].lexeme != params[i].lexeme
    ensures params[i].lexeme in ParameterFrame(params, arguments)
    ensures ParameterFrame(params, arguments)[params[i].lexeme] == arguments[i]
  {
    if i < |params| - 1 {
      var init := params[..|params| - 1];
      assert init[i] == params[i];
      ParameterFrameLastWins(init, arguments, i);
    }
  }

  /**
   * The call frame holds at most one binding per parameter, so at most arity
   * many, and exactly arity many when the parameter names are distinct.
   */
  lemma {:induction false} FrameSizeAtMostArity(params: seq<Tokens.Token>, arguments: seq<Value>)
    requires |params| <= |arguments|
    ensures |ParameterFrame(params, arguments).Keys| <= |params|
    ensures (forall i, j | 0 <= i < j < |params| :: params[i].lexeme != params[j].lexeme)
      ==> |ParameterFrame(params, arguments).Keys| == |params|
  {
    if params != [] {
      var init, last := params[..|params| - 1], params[|params| - 1];
      FrameSizeAtMostArity(init, arguments);
      var before := ParameterFrame(init, arguments).Keys;
      assert ParameterFrame(params, arguments).Keys == before + {last.lexeme};
      if last.lexeme in before {
        assert before + {last.lexeme} == before;
      } else {
        assert |before + {last.lexeme}| == |before| + 1;
      }
      if forall i, j | 0 <= i < j < |params| :: params[i].lexeme != params[j].lexeme {
        ParameterFrameKeys(init, arguments);
        forall k | 0 <= k < |init| ensures init[k].lexeme != last.lexeme {
          assert init[k] == params[k];
        }
        assert last.lexeme !in before;
        assert forall i, j | 0 <= i < j < |init| :: init[i].lexeme != init[j].lexeme by {
          forall i, j | 0 <= i < j < |init| ensures init[i].lexeme != init[j].lexeme {
            assert init[i] == params[i] && init[j] == params[j];
          }
        }
      }
    }
  }

  /** With pairwise distinct parameter names, parameter i is bound to argument i. */
  lemma DistinctParametersBindPositionally(params: seq<Tokens.Token>, arguments: seq<Value>)
    requires |params| <= |arguments|
    requires forall i, j | 0 <= i < j < |params| :: params[i].lexeme != params[j].lexeme
    ensures forall i | 0 <= i < |params| ::
      params[i].lexeme in ParameterFrame(params, arguments)
      && ParameterFrame(params, arguments)[params[i].lexeme] == arguments[i]
  {
    forall i | 0 <= i < |params|
      ensures params[i].lexeme in ParameterFrame(params, arguments)
      ensures ParameterFrame(params, arguments)[params[i].lexeme] == arguments[i]
    {
      ParameterFrameLastWins(params, arguments, i);
    }
  }

  class RoTalFunction {
    const declaration: FunctionDecl
    const closure: Environment
    const isInitializer: bool

    constructor (declaration: FunctionDecl, closure: Environment, isInitializer: bool)
      ensures this.declaration == declaration && this.closure == closure
      ensures this.isInitializer == isInitializer
    {
      this.isInitializer := isInitializer;
      this.closure := closure;
      this.declaration := declaration;
    }

    /** The number of arguments a call takes: one per declared parameter. */
    function Arity(): nat
    {
      |declaration.params|
    }

    /**
     * A new function with the same declaration and initializer flag whose
     * closure is a new frame, enclosed by the old closure, binding only
     * `self` to the instance. Nothing that existed before is changed.
     */
    method Bind(instance: InstanceId) returns (bound: RoTalFunction)
      ensures fresh(bound) && fresh(bound.closure)
      ensures bound.declaration == declaration && bound.isInitializer == isInitializer
      ensures bound.closure.enclosing == closure
      ensures bound.closure.values == map["self" := Instance(instance)]
      ensures unchanged(this) && unchanged(closure)
    {
      var environment := new Environment(closure);
      environment.Define("self", Instance(instance));
      bound := new RoTalFunction(declaration, environment, isInitializer);
    }

    /**
     * Runs the body in a new frame enclosed by the closure, holding each
     * parameter bound to its argument; `executeBlock` stands for the
     * interpreter running the body there. An initializer yields `self` from
     * the closure's own frame however the body ended; any other function
     * yields the returned value, or nil when the body ran to completion.
     */
    method Call(arguments: seq<Value>, executeBlock: map<string, Value> -> Outcome)
      returns (result: Value, ghost frame: Environment)
      requires Arity() <= |arguments|
      ensures fresh(frame) && frame.enclosing == closure
      ensures frame.values == ParameterFrame(declaration.params, arguments)
      ensures |frame.values.Keys| <= Arity()
      ensures isInitializer ==> result == closure.GetAtZero("self")
      ensures !isInitializer && executeBlock(frame.values).Returned? ==> result == executeBlock(frame.values).value
      ensures !isInitializer && executeBlock(frame.values).Normal? ==> result == Nil
    {
      var environment := new Environment(closure);
      for i := 0 to |declaration.params|
        invariant environment.enclosing == closure
        invariant environment.values == ParameterFrame(declaration.params[..i], arguments)
      {
        assert declaration.params[..i + 1][..i] == declaration.params[..i];
        environment.Define(declaration.params[i].lexeme, arguments[i]);
      }
      assert declaration.params[..|declaration.params|] == declaration.params;
      frame := environment;
      FrameSizeAtMostArity(declaration.params, arguments);

      var outcome := executeBlock(environment.values);
      if outcome.Returned? {
        if isInitializer {
          return closure.GetAtZero("self"), frame;
        }
        return outcome.value, frame;
      }

      if isInitializer {
        return closure.GetAtZero("self"), frame;
      }
      return Nil, frame;
    }
  }

  /**
   * Binding a function to an instance and calling it: an initializer yields
   * that instance whatever its body does; any other function yields what its
   * body returned in the parameter frame, or nil.
   */
  method CallBound(f: RoTalFunction, instance: InstanceId, arguments: seq<Value>,
                   executeBlock: map<string, Value> -> Outcome)
    returns (result: Value)
    requires f.Arity() <= |arguments|
    ensures f.isInitializer ==> result == Instance(instance)
    ensures !f.isInitializer ==>
      var outcome := executeBlock(ParameterFrame(f.declaration.params, arguments));
      result == if outcome.Returned? then outcome.value else Nil
  {
    var bound := f.Bind(instance);
    ghost var frame;
    result, frame := bound.Call(arguments, executeBlock);
  }
}
