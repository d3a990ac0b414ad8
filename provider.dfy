/** The provider annotation: when a class is declared it is tagged as a
    provider under a binding key and one instance of it is registered. */
module Provider {
  import opened Common
  import opened Registry

  /** The value of the `engine:module` metadata of a provider class. */
  const ProviderMarker := "provider"

  /** The binding key: the given name, unless it is absent or empty, in which
      case the class's own name. */
  function BindingKey(name: Option<string>, cls: ClassRef): (key: string)
    ensures name.Some? && name.value != "" ==> key == name.value
    ensures name == None || name == Some("") ==> key == cls.name
  {
    if Truthy(name) then name.value else cls.name
  }

  /** The arguments the instance is constructed with: the given list, and
      none when the list is absent (an empty list also means none). */
  function ConstructorArgs<A>(options: Option<seq<A>>): (args: seq<A>)
    ensures options.Some? ==> args == options.value
    ensures options.None? ==> args == []
  {
    if options.Some? && |options.value| > 0 then options.value else []
  }

  /** Applies the annotation `Provide(name, options, overwrite)` to class `cls`;
      `construct` stands for `new cls(...args)`. */
  method Provide<V, A>(inj: Injector<V>, cls: ClassRef, name: Option<string>, options: Option<seq<A>>,
                       overwrite: Option<bool>, construct: (ClassRef, seq<A>) -> V) returns (r: Outcome)
    requires inj.Valid()
    modifies inj`providerName, inj`engineModule, inj`trace, inj`created, inj`entries, inj`order
    ensures inj.Valid() && inj.created
    ensures inj.engineModule == old(inj.engineModule)[cls := ProviderMarker]
    ensures inj.providerName == old(inj.providerName)[cls := BindingKey(name, cls)]
    ensures inj.trace == old(inj.trace) +
      if inj.debugMode then [Providing(name, cls, overwrite), Registering(BindingKey(name, cls), Flag(overwrite))] else []
    ensures match RegisterResult(old(inj.entries), BindingKey(name, cls), construct(cls, ConstructorArgs(options)), Flag(overwrite))
            case Ok(m) => r == Pass && inj.entries == m && inj.order == KeyOrder(old(inj.order), BindingKey(name, cls))
            case Err(e) => r == Fail(e) && inj.entries == old(inj.entries) && inj.order == old(inj.order)
  {
    var providerName := BindingKey(name, cls);
    inj.engineModule := inj.engineModule[cls := ProviderMarker];
    inj.providerName := inj.providerName[cls := providerName];
    if inj.debugMode {
      inj.trace := inj.trace + [Providing(name, cls, overwrite)];
    }
    var registered;
    if options.Some? && |options.value| > 0 {
      registered := inj.Register(providerName, construct(cls, options.value), Flag(overwrite));
    } else {
      registered := inj.Register(providerName, construct(cls, []), Flag(overwrite));
    }
    r := if registered.Ok? then Pass else Fail(registered.error);
  }

  /** After a successful binding, resolving the binding key yields the
      instance constructed from the class and its arguments. */
  lemma ProvidedInstanceResolves<V, A>(entries: map<string, V>, cls: ClassRef, name: Option<string>,
                                       options: Option<seq<A>>, overwrite: Option<bool>,
                                       construct: (ClassRef, seq<A>) -> V, canFail: bool)
    requires RegisterResult(entries, BindingKey(name, cls), construct(cls, ConstructorArgs(options)), Flag(overwrite)).Ok?
    ensures ResolveResult(RegisterResult(entries, BindingKey(name, cls), construct(cls, ConstructorArgs(options)), Flag(overwrite)).value,
                          BindingKey(name, cls), canFail)
         == Ok(Some(construct(cls, ConstructorArgs(options))))
  {
  }
}
