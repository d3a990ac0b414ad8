/** The injection annotation: when a property of a consuming class is
    declared, a lookup key is derived and a getter is installed that asks the
    registry for that key on every read. */
module Injection {
  import opened Common
  import opened Registry
  import opened Provider

  /** The getter installed on an injected property. */
  datatype Accessor = Accessor(key: string, canFail: bool)

  /** The prototype of a consuming class, as far as its injected properties go. */
  class Target {
    var accessors: map<string, Accessor>

    constructor ()
      ensures accessors == map[]
    {
      accessors := map[];
    }
  }

  /** The lookup key: the provider key of the property's declared class when it
      has a non-empty one, else the given name when that is non-empty; with
      neither, the property is not injectable. */
  function DeriveKey(metaKey: Option<string>, name: Option<string>): (r: Result<string>)
    ensures Truthy(metaKey) ==> r == Ok(metaKey.value)
    ensures !Truthy(metaKey) && Truthy(name) ==> r == Ok(name.value)
    ensures r.Err? <==> !Truthy(metaKey) && !Truthy(name)
    ensures r.Err? ==> r.error == NotAProvider
    ensures r.Ok? ==> r.value != ""
  {
    if Truthy(metaKey) then Ok(metaKey.value)
    else if Truthy(name) then Ok(name.value)
    else Err(NotAProvider)
  }

  /** Applies the annotation `Inject(name, canFail)` to property `prop` of
      `target`, whose declared type is the class `declared`. */
  method Inject<V>(inj: Injector<V>, target: Target, prop: string, declared: ClassRef,
                   name: Option<string>, canFail: Option<bool>) returns (r: Result<Accessor>)
    requires inj.Valid()
    modifies inj`trace, target
    ensures inj.Valid()
    ensures inj.trace == old(inj.trace) +
      if inj.debugMode then [Injecting(name, MetaKey(inj.providerName, declared), canFail)] else []
    ensures match DeriveKey(MetaKey(inj.providerName, declared), name)
            case Ok(k) => r == Ok(Accessor(k, Flag(canFail))) && target.accessors == old(target.accessors)[prop := r.value]
            case Err(e) => r == Err(e) && target.accessors == old(target.accessors)
  {
    var providingKey := MetaKey(inj.providerName, declared);
    if inj.debugMode {
      inj.trace := inj.trace + [Injecting(name, providingKey, canFail)];
    }
    if !Truthy(providingKey) {
      if !Truthy(name) {
        r := Err(NotAProvider);
        return;
      }
      providingKey := name;
    }
    var getter := Accessor(providingKey.value, Flag(canFail));
    target.accessors := target.accessors[prop := getter];
    r := Ok(getter);
  }

  /** One read of an injected property: it resolves the accessor's key now. */
  method Read<V>(inj: Injector<V>, acc: Accessor) returns (r: Result<Option<V>>)
    requires inj.Valid()
    modifies inj`created, inj`entries, inj`order, inj`trace
    ensures inj.Valid() && inj.created
    ensures inj.entries == old(inj.entries) && inj.order == old(inj.order)
    ensures inj.trace == old(inj.trace) + if inj.debugMode then [Resolving(acc.key, acc.canFail)] else []
    ensures r == ResolveResult(inj.entries, acc.key, acc.canFail)
  {
    r := inj.Resolve(acc.key, acc.canFail);
  }

  /** Nothing is cached: a read after an overwrite of the accessor's key sees
      the new value, whatever the registry held before. */
  lemma ReadSeesOverwrite<V>(entries: map<string, V>, acc: Accessor, value: V)
    ensures RegisterResult(entries, acc.key, value, true).Ok?
    ensures ResolveResult(RegisterResult(entries, acc.key, value, true).value, acc.key, acc.canFail) == Ok(Some(value))
  {
  }

  /** A class bound by the provider annotation, injected without a name (or
      with any name), reads as the instance it registered, provided its binding
      key is not empty. */
  lemma ProvidedClassInjects<V, A>(providerName: map<ClassRef, string>, entries: map<string, V>, cls: ClassRef,
                                   name: Option<string>, options: Option<seq<A>>, overwrite: Option<bool>,
                                   construct: (ClassRef, seq<A>) -> V, injName: Option<string>, canFail: bool)
    requires BindingKey(name, cls) != ""
    requires RegisterResult(entries, BindingKey(name, cls), construct(cls, ConstructorArgs(options)), Flag(overwrite)).Ok?
    ensures DeriveKey(MetaKey(providerName[cls := BindingKey(name, cls)], cls), injName) == Ok(BindingKey(name, cls))
    ensures ResolveResult(RegisterResult(entries, BindingKey(name, cls), construct(cls, ConstructorArgs(options)), Flag(overwrite)).value,
                          BindingKey(name, cls), canFail)
         == Ok(Some(construct(cls, ConstructorArgs(options))))
  {
  }

  /** A provider bound under the empty key (no name and an unnamed class)
      cannot be injected by type: the empty metadata counts as none. */
  lemma EmptyBindingKeyNotInjectable(providerName: map<ClassRef, string>, cls: ClassRef)
    requires cls.name == ""
    ensures DeriveKey(MetaKey(providerName[cls := BindingKey(None, cls)], cls), None) == Err(NotAProvider)
  {
  }

  /** A provider injected by type and a plain value injected by name both
      read as what was registered. */
  method InjectionScenario()
  {
    var inj := new Injector<string>();
    var helperClass := ClassRef(1, "SomeHelper");
    var p := Provide(inj, helperClass, Some("some_helper"), None, None, (c: ClassRef, args: seq<string>) => c.name);
    assert p == Pass;
    var s := inj.Register("some_test_string", "test_string", false);
    assert s == Ok(true);
    var example := new Target();
    var helper := Inject(inj, example, "helper", helperClass, None, None);
    assert helper == Ok(Accessor("some_helper", false));
    var testString := Inject(inj, example, "testString", ClassRef(2, "String"), Some("some_test_string"), None);
    assert testString == Ok(Accessor("some_test_string", false));
    var v := Read(inj, helper.value);
    assert v == Ok(Some("SomeHelper"));
    v := Read(inj, testString.value);
    assert v == Ok(Some("test_string"));
  }

  /** An unknown name is accepted at definition and fails on read; a class
      without provider metadata and no name fails at definition, even with
      `canFail`, and installs nothing. */
  method FailureScenario()
  {
    var inj := new Injector<string>();
    var example2 := new Target();
    var willFail := Inject(inj, example2, "willFail", ClassRef(2, "String"), Some("does_not_exist"), None);
    assert willFail == Ok(Accessor("does_not_exist", false));
    var v := Read(inj, willFail.value);
    assert v == Err(UnknownKey);
    var example3 := new Target();
    var notProvider := Inject(inj, example3, "willFail", ClassRef(3, "Something"), None, Some(true));
    assert notProvider == Err(NotAProvider);
    assert example3.accessors == map[];
  }

  /** Two reads of one property around an overwrite see the two values. */
  method LazyReadScenario()
  {
    var inj := new Injector<int>();
    var example := new Target();
    var acc := Inject(inj, example, "n", ClassRef(4, "Number"), Some("n"), None);
    assert acc == Ok(Accessor("n", false));
    var s := inj.Register("n", 5, false);
    var v := Read(inj, acc.value);
    assert v == Ok(Some(5));
    s := inj.Register("n", 6, true);
    v := Read(inj, acc.value);
    assert v == Ok(Some(6));
  }
}
