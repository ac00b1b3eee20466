/** A model of royalnet's EngineerRouter: a registry of command handlers by
    name, and the call path that splits keyword arguments into the ones
    validated by the handler's model and the ones passed through untouched.

    Validation by the handler's model is the environment function `validate`:
    from the model's keyword arguments to the validated fields, or a
    validation error. Running the handler itself is not modelled; a call
    yields the handler and the exact keyword arguments it is invoked with. */
module Engineer {
  import opened Wrappers

  /** A command handler: the function's own `__name__` and its body. */
  datatype Handler<H> = Handler(fnName: string, body: H)

  /** The router's state: the registered commands by name. */
  datatype Router<H> = Router(commands: map<string, Handler<H>>)

  /** The handler a successful call invokes, and the keyword arguments it
      receives. */
  datatype Invocation<H, V> = Invocation(handler: Handler<H>, kwargs: map<string, V>)

  /** The ways a call fails: an unregistered name (a lookup error), a failed
      validation, or a keyword supplied twice when the validated fields and the
      pass-through arguments are merged. */
  datatype CallError<E> =
    | UnknownCommand(name: string)
    | ValidationFailed(err: E)
    | DuplicateKeywords(keys: set<string>)

  /** Keyword arguments split into the part validated by the model and the
      part passed through unchanged. */
  datatype Partition<V> = Partition(model: map<string, V>, extra: map<string, V>)

  /** Whether a keyword is passed through unvalidated: it starts with an
      underscore (so double-underscore keywords are passed through as well). */
  predicate IsExtra(key: string)
  {
    |key| > 0 && key[0] == '_'
  }

  /** A new router has no commands. */
  function NewRouter<H>(): (r: Router<H>)
    ensures |r.commands| == 0
  {
    Router(map[])
  }

  /** The name a command is registered under: the given name when it is a
      non-empty string, else the function's own name. */
  function RegisteredName<H>(f: Handler<H>, name: Option<string>): (n: string)
    ensures name.Some? && name.value != "" ==> n == name.value
    ensures name.None? || name.value == "" ==> n == f.fnName
  {
    match name
    case Some(s) => if s != "" then s else f.fnName
    case None => f.fnName
  }

  /** `add_command`: registers `f` under its name, replacing any handler
      registered under that name and leaving all other entries as they were. */
  function AddCommand<H>(r: Router<H>, f: Handler<H>, name: Option<string>): (r': Router<H>)
    ensures RegisteredName(f, name) in r'.commands
    ensures r'.commands[RegisteredName(f, name)] == f
    ensures r'.commands.Keys == r.commands.Keys + {RegisteredName(f, name)}
    ensures forall k :: k in r.commands && k != RegisteredName(f, name) ==> r'.commands[k] == r.commands[k]
  {
    r.(commands := r.commands[RegisteredName(f, name) := f])
  }

  /** Registering twice under the same name keeps only the second handler,
      exactly as if the first registration had not happened. */
  lemma AddCommandOverwrites<H>(r: Router<H>, f: Handler<H>, n1: Option<string>, g: Handler<H>, n2: Option<string>)
    requires RegisteredName(f, n1) == RegisteredName(g, n2)
    ensures AddCommand(AddCommand(r, f, n1), g, n2) == AddCommand(r, g, n2)
  {
  }

  /** The `command(name)` decorator: wraps `f` with the model-building
      wrapper (`wrap`), which keeps the function's own name, and registers the
      wrapped function. It returns the new router and the wrapped function. */
  function Decorate<H>(r: Router<H>, f: Handler<H>, name: Option<string>, wrap: H -> H): (p: (Router<H>, Handler<H>))
    // the returned function keeps the original's name and wraps its body
    ensures p.1.fnName == f.fnName && p.1.body == wrap(f.body)
    // it is registered under the name add_command picks for the original
    ensures p.0.commands.Keys == r.commands.Keys + {RegisteredName(f, name)}
    ensures p.0.commands[RegisteredName(f, name)] == p.1
    ensures forall k :: k in r.commands && k != RegisteredName(f, name) ==> p.0.commands[k] == r.commands[k]
  {
    var decorated := Handler(f.fnName, wrap(f.body));
    (AddCommand(r, decorated, name), decorated)
  }

  /** The split of `call`'s keyword arguments: every key lands in exactly one
      part, with its value unchanged, and in the pass-through part exactly when
      it starts with an underscore. */
  function Split<V>(kwargs: map<string, V>): (p: Partition<V>)
    ensures p.model.Keys !! p.extra.Keys
    ensures p.model.Keys + p.extra.Keys == kwargs.Keys
    ensures forall k :: k in p.extra <==> k in kwargs && IsExtra(k)
    ensures forall k :: k in p.model ==> p.model[k] == kwargs[k]
    ensures forall k :: k in p.extra ==> p.extra[k] == kwargs[k]
  {
    Partition(
      map k | k in kwargs && !IsExtra(k) :: kwargs[k],
      map k | k in kwargs && IsExtra(k) :: kwargs[k])
  }

  /** Putting the two parts back together gives the original arguments. */
  lemma SplitMergesBack<V>(kwargs: map<string, V>)
    ensures Split(kwargs).model + Split(kwargs).extra == kwargs
  {
  }

  /** Two sets that are not disjoint share an element. */
  lemma OverlapIsNonEmpty<T>(a: set<T>, b: set<T>)
    requires !(a !! b)
    ensures a * b != {}
  {
    var k :| k in a && k in b;
    assert k in a * b;
  }

  /** `call(name, **kwargs)`: split the arguments, look the command up,
      validate the model part, and invoke the handler with the validated fields
      and the pass-through part. */
  function Call<H, V, E>(r: Router<H>, name: string, kwargs: map<string, V>,
                         validate: (Handler<H>, map<string, V>) -> Result<map<string, V>, E>): (res: Result<Invocation<H, V>, CallError<E>>)
    // an unregistered name fails at the lookup, before validation
    ensures name !in r.commands <==> res == Err(UnknownCommand(name))
    // a failed validation stops the call: the handler is not invoked
    ensures name in r.commands && validate(r.commands[name], Split(kwargs).model).Err? ==>
              res == Err(ValidationFailed(validate(r.commands[name], Split(kwargs).model).error))
    // a validation error is reported only when validation failed
    ensures res.Err? && res.error.ValidationFailed? ==>
              name in r.commands && validate(r.commands[name], Split(kwargs).model).Err?
    // once validation passes, the call succeeds exactly when no validated field
    // is also a pass-through keyword, and fails with the overlap otherwise
    ensures name in r.commands && validate(r.commands[name], Split(kwargs).model).Ok? ==>
              && (res.Ok? <==> validate(r.commands[name], Split(kwargs).model).value.Keys !! Split(kwargs).extra.Keys)
              && (res.Err? ==> res.error.DuplicateKeywords?)
    // a validated field that is also a pass-through keyword is a duplicate argument
    ensures res.Err? && res.error.DuplicateKeywords? ==>
              && name in r.commands
              && validate(r.commands[name], Split(kwargs).model).Ok?
              && res.error.keys == validate(r.commands[name], Split(kwargs).model).value.Keys * Split(kwargs).extra.Keys
              && res.error.keys != {}
    // a successful call invokes the registered handler with the validated
    // fields plus the pass-through arguments, unchanged
    ensures res.Ok? ==>
              && name in r.commands
              && res.value.handler == r.commands[name]
              && validate(r.commands[name], Split(kwargs).model).Ok?
              && var fields := validate(r.commands[name], Split(kwargs).model).value;
              && fields.Keys !! Split(kwargs).extra.Keys
              && res.value.kwargs.Keys == fields.Keys + Split(kwargs).extra.Keys
              && (forall k :: k in fields ==> res.value.kwargs[k] == fields[k])
              && (forall k :: k in kwargs && IsExtra(k) ==> k in res.value.kwargs && res.value.kwargs[k] == kwargs[k])
  {
    var p := Split(kwargs);
    if name !in r.commands then Err(UnknownCommand(name))
    else
      var f := r.commands[name];
      match validate(f, p.model)
      case Err(e) => Err(ValidationFailed(e))
      case Ok(fields) =>
        if fields.Keys !! p.extra.Keys then Ok(Invocation(f, fields + p.extra))
        else
          OverlapIsNonEmpty(fields.Keys, p.extra.Keys);
          Err(DuplicateKeywords(fields.Keys * p.extra.Keys))
  }

  /** A command just added is found by a call under its registered name: the
      call never fails the lookup, and invokes exactly the added handler. */
  lemma AddedCommandIsCallable<H, V, E>(r: Router<H>, f: Handler<H>, name: Option<string>, kwargs: map<string, V>,
                                        validate: (Handler<H>, map<string, V>) -> Result<map<string, V>, E>)
    ensures var res := Call(AddCommand(r, f, name), RegisteredName(f, name), kwargs, validate);
            && (res.Err? ==> !res.error.UnknownCommand?)
            && (res.Ok? ==> res.value.handler == f)
  {
  }

  /** A decorated command is callable under its registration name, and a
      successful call invokes the wrapped function. */
  lemma DecoratedCommandIsCallable<H, V, E>(r: Router<H>, f: Handler<H>, name: Option<string>, wrap: H -> H,
                                            kwargs: map<string, V>,
                                            validate: (Handler<H>, map<string, V>) -> Result<map<string, V>, E>)
    ensures var res := Call(Decorate(r, f, name, wrap).0, RegisteredName(f, name), kwargs, validate);
            && (res.Err? ==> !res.error.UnknownCommand?)
            && (res.Ok? ==> res.value.handler == Handler(f.fnName, wrap(f.body)))
  {
  }

  /** A new router knows no command: every call fails the lookup. */
  lemma NewRouterCallsFail<H, V, E>(name: string, kwargs: map<string, V>,
                                    validate: (Handler<H>, map<string, V>) -> Result<map<string, V>, E>)
    ensures Call(NewRouter<H>(), name, kwargs, validate) == Err(UnknownCommand(name))
  {
  }
}
