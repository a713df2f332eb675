/** MethodsView: routes a request to the handler named after its HTTP
    method. The view's handlers are looked up by name (the source uses
    attribute lookup), so they are given here as one function from a
    handler name to what awaiting that handler gives. */
module MethodsView {
  import opened Http
  import opened Ascii

  /** The method names the view accepts. Note "option", not "options". */
  const Methods: set<string> := {"get", "post", "put", "patch", "delete", "option"}

  /** The outcome of one invocation: the names of the handlers it invoked,
      in order, and what it returned or raised. */
  datatype Dispatched<+V> = Dispatched(invoked: seq<string>, result: Result<V>)

  /** Lower-case the request method; if it is accepted, invoke the handler
      of that name and return its result unchanged, otherwise raise
      method-not-allowed with the lowered method and the accepted set. */
  function Dispatch<V>(verb: string, handlers: string -> Result<V>): (d: Dispatched<V>)
    ensures d.invoked == [] || d.invoked == [Lower(verb)]
    ensures d.invoked != [] <==> Lower(verb) in Methods
    ensures d.invoked != [] ==> d.result == handlers(Lower(verb))
    ensures d.invoked == [] ==> d.result == Raise(MethodNotAllowed(Lower(verb), Methods))
  {
    var name := Lower(verb);
    if name in Methods then Dispatched([name], handlers(name))
    else Dispatched([], Raise(MethodNotAllowed(name, Methods)))
  }

  /** The accepted methods as an enumeration, and a reference parser that
      compares a method with each name ignoring case. */
  datatype Verb = Get | Post | Put | Patch | Delete | Option

  function Name(v: Verb): string {
    match v
    case Get => "get"
    case Post => "post"
    case Put => "put"
    case Patch => "patch"
    case Delete => "delete"
    case Option => "option"
  }

  function ParseVerb(verb: string): Option<Verb> {
    if SameIgnoringCase(verb, "get") then Some(Get)
    else if SameIgnoringCase(verb, "post") then Some(Post)
    else if SameIgnoringCase(verb, "put") then Some(Put)
    else if SameIgnoringCase(verb, "patch") then Some(Patch)
    else if SameIgnoringCase(verb, "delete") then Some(Delete)
    else if SameIgnoringCase(verb, "option") then Some(Option)
    else None
  }

  /** Each verb's name is lower-case. */
  lemma NameIsLower(v: Verb)
    ensures Lower(Name(v)) == Name(v)
  {
  }

  /** The accepted set is exactly the six verbs' names, all lower-case. */
  lemma MethodsAreVerbNames()
    ensures forall v: Verb :: Lower(Name(v)) == Name(v) && Name(v) in Methods
    ensures forall name :: name in Methods ==> exists v: Verb :: Name(v) == name
  {
    forall v: Verb ensures Lower(Name(v)) == Name(v) {
      NameIsLower(v);
    }
    forall name | name in Methods ensures exists v: Verb :: Name(v) == name {
      if name == "get" { assert Name(Get) == name; }
      else if name == "post" { assert Name(Post) == name; }
      else if name == "put" { assert Name(Put) == name; }
      else if name == "patch" { assert Name(Patch) == name; }
      else if name == "delete" { assert Name(Delete) == name; }
      else { assert Name(Option) == name; }
    }
  }

  /** The reference parser only answers a verb whose name matches ignoring case. */
  lemma ParseVerbSound(verb: string)
    ensures ParseVerb(verb).Some? ==> SameIgnoringCase(verb, Name(ParseVerb(verb).value))
  {
  }

  /** Parsing a verb's own name, in any case, gives that verb back. */
  lemma ParseVerbName(v: Verb, verb: string)
    requires SameIgnoringCase(verb, Name(v))
    ensures ParseVerb(verb) == Some(v)
  {
    MethodsAreVerbNames();
    LowerCaseInsensitive(verb, Name(v));
    forall w: Verb ensures SameIgnoringCase(verb, Name(w)) ==> w == v {
      LowerCaseInsensitive(verb, Name(w));
    }
  }

  /** Dispatch agrees with the reference parser: a method that matches a
      verb's name ignoring case invokes exactly that verb's handler once and
      returns its result; any other method invokes nothing and raises
      method-not-allowed. */
  lemma DispatchMatchesParse<V>(verb: string, handlers: string -> Result<V>)
    ensures ParseVerb(verb).Some? ==>
      var name := Name(ParseVerb(verb).value);
      Dispatch(verb, handlers) == Dispatched([name], handlers(name))
    ensures ParseVerb(verb).None? ==>
      Dispatch(verb, handlers) == Dispatched([], Raise(MethodNotAllowed(Lower(verb), Methods)))
  {
    MethodsAreVerbNames();
    ParseVerbSound(verb);
    match ParseVerb(verb)
    case Some(v) =>
      LowerCaseInsensitive(verb, Name(v));
    case None =>
      if Lower(verb) in Methods {
        var v: Verb :| Name(v) == Lower(verb);
        LowerCaseInsensitive(verb, Name(v));
        ParseVerbName(v, verb);
        assert false;
      }
  }

  /** Methods that differ only in the case of their letters ("GET", "Get",
      "get") are dispatched identically. */
  lemma DispatchIgnoresCase<V>(a: string, b: string, handlers: string -> Result<V>)
    requires SameIgnoringCase(a, b)
    ensures Dispatch(a, handlers) == Dispatch(b, handlers)
  {
    LowerCaseInsensitive(a, b);
  }

  /** The standard OPTIONS method lowers to "options", which is not in the
      accepted set: it is rejected and no handler runs, while the
      non-standard "OPTION" reaches the "option" handler. */
  lemma OptionsRejected<V>(handlers: string -> Result<V>)
    ensures Dispatch("OPTIONS", handlers) == Dispatched([], Raise(MethodNotAllowed("options", Methods)))
    ensures Dispatch("OPTION", handlers) == Dispatched(["option"], handlers("option"))
  {
    assert Lower("OPTIONS") == "options";
    assert Lower("OPTION") == "option";
  }

  /** The handlers a view inherits without overriding them: each raises
      NotImplementedError. */
  function NotOverridden<V>(name: string): Result<V> {
    Raise(NotImplementedError)
  }

  /** A view that overrides no handler never returns a value: an accepted
      method raises NotImplementedError, any other method-not-allowed. */
  lemma NotOverriddenAlwaysRaises<V>(verb: string)
    ensures Dispatch<V>(verb, NotOverridden).result ==
      if Lower(verb) in Methods then Raise(NotImplementedError)
      else Raise(MethodNotAllowed(Lower(verb), Methods))
  {
  }
}
