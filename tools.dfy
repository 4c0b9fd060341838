/**
 * Renaming tool functions (`update_fn`) and turning the exceptions a tool
 * raises into retry requests for the model (`wrap_tool_errors`).  A Python
 * function object is a record of the attributes these helpers read or set,
 * and its behaviour is a function from the call's arguments to an outcome.
 */
module Tools {
  import opened Wrappers

  /** Prefix of the retry message that wraps any other exception. */
  const ToolFailedPrefix: string := "Tool failed: "
  /** ValueError message: called on a function without `name`. */
  const FunctionNeedsName: string := "name must be provided when used as a function"
  /** ValueError message: used as a decorator without any name. */
  const DecoratorNeedsName: string := "name must be provided either as argument or keyword"

  /** How one call of a tool ends. */
  datatype Outcome<V> =
    | Ok(value: V)               // returns `value`
    | Retry(message: string)     // raises pydantic_ai.ModelRetry(message)
    | Err(message: string)       // raises another Exception `e`, with str(e) == message
    | Interrupt(message: string) // raises a BaseException that is not an Exception

  /**
   * A function object: `__name__`, `__qualname__`, `__doc__`, whether it is
   * a coroutine function, and what calling it with arguments `A` does
   * (awaiting it, for a coroutine function).
   */
  datatype Callable<!A, V> = Callable(
    name: string,
    qualname: string,
    doc: Option<string>,
    isAsync: bool,
    call: A -> Outcome<V>)

  /**
   * `wraps(func)` applied to a fresh wrapper with behaviour `call`: name,
   * qualified name and doc string are copied from `func`.
   */
  function Wraps<A, V>(func: Callable<A, V>, isAsync: bool, call: A -> Outcome<V>): Callable<A, V> {
    Callable(func.name, func.qualname, func.doc, isAsync, call)
  }

  /**
   * `w` is `func` renamed to `newName`: it behaves like `func`, is a
   * coroutine function exactly when `func` is, keeps `func`'s qualified name,
   * and its doc string is `description` when one is given (even ""), else
   * `func`'s.
   */
  ghost predicate RenamedAs<A(!new), V>(w: Callable<A, V>, func: Callable<A, V>, newName: string, description: Option<string>) {
    && w.name == newName
    && w.qualname == func.qualname
    && w.doc == (if description.Some? then description else func.doc)
    && w.isAsync == func.isAsync
    && forall a :: w.call(a) == func.call(a)
  }

  /** `apply`: wrap `func`, then overwrite the wrapper's name and, if given, its doc. */
  method Apply<A(!new), V>(func: Callable<A, V>, newName: string, description: Option<string>) returns (wrapper: Callable<A, V>)
    ensures RenamedAs(wrapper, func, newName, description)
  {
    if func.isAsync {
      // a coroutine function that awaits `func` on the same arguments
      wrapper := Wraps(func, true, a => func.call(a));
    } else {
      // a plain function that calls `func` on the same arguments
      wrapper := Wraps(func, false, a => func.call(a));
    }
    wrapper := wrapper.(name := newName);
    if description.Some? {
      wrapper := wrapper.(doc := description);
    }
  }

  /** The first positional argument of `update_fn`. */
  datatype NameOrFunc<!A, V> =
    | NoArgument
    | NameArgument(name: string)
    | FuncArgument(func: Callable<A, V>)

  /** What `update_fn` returns: a renamed function, or a decorator that renames. */
  datatype Updated<!A, V> =
    | Renamed(func: Callable<A, V>)
    | Decorator(name: string, description: Option<string>)

  /**
   * `update_fn(nameOrFunc, name=name, description=description)`. Called on a
   * function it needs `name`; as a decorator the positional name wins over
   * `name`, and one of the two must be given.
   */
  method UpdateFn<A(!new), V>(nameOrFunc: NameOrFunc<A, V>, name: Option<string>, description: Option<string>)
    returns (r: Result<Updated<A, V>>)
    ensures r.Failure? <==> name.None? && !nameOrFunc.NameArgument?
    ensures nameOrFunc.FuncArgument? && name.None? ==> r == Failure(FunctionNeedsName)
    ensures nameOrFunc.NoArgument? && name.None? ==> r == Failure(DecoratorNeedsName)
    ensures nameOrFunc.FuncArgument? && name.Some? ==>
      r.Success? && r.value.Renamed? && RenamedAs(r.value.func, nameOrFunc.func, name.value, description)
    ensures nameOrFunc.NameArgument? ==> r == Success(Decorator(nameOrFunc.name, description))
    ensures nameOrFunc.NoArgument? && name.Some? ==> r == Success(Decorator(name.value, description))
  {
    if nameOrFunc.FuncArgument? {
      if name.None? {
        return Failure(FunctionNeedsName);
      }
      var renamed := Apply(nameOrFunc.func, name.value, description);
      return Success(Renamed(renamed));
    }
    var decoratorName := if nameOrFunc.NameArgument? then Some(nameOrFunc.name) else name;
    if decoratorName.None? {
      return Failure(DecoratorNeedsName);
    }
    r := Success(Decorator(decoratorName.value, description));
  }

  /** Applying the decorator that `update_fn` returned to `func`. */
  method Decorate<A(!new), V>(decorator: Updated<A, V>, func: Callable<A, V>) returns (w: Callable<A, V>)
    requires decorator.Decorator?
    ensures RenamedAs(w, func, decorator.name, decorator.description)
  {
    w := Apply(func, decorator.name, decorator.description);
  }

  /** The `try`/`except` of `wrap_tool_errors` applied to one call's outcome. */
  function TranslateError<V>(o: Outcome<V>): (r: Outcome<V>)
    ensures !r.Err?
    ensures !o.Err? ==> r == o
    ensures o.Err? ==> r == Retry(ToolFailedPrefix + o.message)
  {
    match o
    case Err(message) => Retry(ToolFailedPrefix + message)
    case _ => o
  }

  /**
   * `wrap_tool_errors(toolFn)`: a wrapper of the same kind (coroutine or not)
   * carrying `toolFn`'s name and doc, whose calls go through TranslateError.
   */
  function WrapToolErrors<A(!new), V>(toolFn: Callable<A, V>): (w: Callable<A, V>)
    ensures w.name == toolFn.name && w.qualname == toolFn.qualname && w.doc == toolFn.doc
    ensures w.isAsync == toolFn.isAsync
    ensures forall a :: w.call(a) == TranslateError(toolFn.call(a))
  {
    if toolFn.isAsync then Wraps(toolFn, true, a => TranslateError(toolFn.call(a)))
    else Wraps(toolFn, false, a => TranslateError(toolFn.call(a)))
  }

  /**
   * A wrapped tool returns what the tool returns, re-raises ModelRetry and
   * BaseExceptions unchanged, and turns every other exception into a
   * ModelRetry: no plain exception leaves it.
   */
  lemma WrappedToolOutcome<A(!new), V>(toolFn: Callable<A, V>, args: A)
    ensures var o := toolFn.call(args); var w := WrapToolErrors(toolFn).call(args);
      && !w.Err?
      && (o.Ok? ==> w == Ok(o.value))
      && (o.Retry? ==> w == Retry(o.message))
      && (o.Interrupt? ==> w == Interrupt(o.message))
      && (o.Err? ==> w == Retry(ToolFailedPrefix + o.message))
  {
  }

  /** Wrapping a wrapped tool again changes none of its calls. */
  lemma WrapToolErrorsIdempotent<A(!new), V>(toolFn: Callable<A, V>, args: A)
    ensures WrapToolErrors(WrapToolErrors(toolFn)).call(args) == WrapToolErrors(toolFn).call(args)
  {
  }
}
