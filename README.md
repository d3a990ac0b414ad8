# Injector: a model of a minimal dependency-injection facility

The system is a process-wide registry of named instances ("injectables") plus
two class annotations written as TypeScript decorators:

- `Injector` (src/module/injector.ts) holds the registry. `register` refuses a
  duplicate key unless `overwrite` is set. `resolve` throws on an unknown key
  unless `canFail` is set, and then returns `null`. `list` returns the keys.
  `debug` and `isDebug` set and read a debug flag. The registry map lives on
  the global object and is created lazily by `setupGlobal`.
- `Provide` (src/decorator/provide.ts) runs when a class is declared. It picks
  a binding key: the given name, or the class's own name. It tags the class
  with `engine:module = 'provider'` and `provider:name = key` metadata. It
  constructs one instance, with the given constructor arguments if there are
  any, and registers it under the key.
- `Inject` (src/decorator/inject.ts) runs when a property is declared. It
  derives a lookup key: the `provider:name` of the property's declared class,
  else the given name, else it throws at once. It installs a getter that calls
  `resolve(key, canFail)` on every read, so nothing is cached. When the class
  has provider metadata and a name is also given, the metadata key wins
  (src/decorator/inject.ts:18, 27-30). Some design descriptions of the system
  say the explicit name takes priority. The model follows the code.

The Dafny project has four modules:

- `Common` (common.dfy): `Option` for JavaScript's optional arguments, the
  error kinds `DuplicateKey`, `UnknownKey` and `NotAProvider`, `Result` and
  `Outcome` for "returns or throws", class references, and JavaScript
  truthiness of optional strings and flags.
- `Registry` (registry.dfy): the class `Injector`. Its fields are the entries
  map, the key list in insertion order, the debug flag, whether the global map
  exists yet, the two metadata side tables, and the trace of diagnostic lines.
  Beside the class are pure functions `RegisterResult`, `ResolveResult` and
  `KeyOrder` that specify its methods, and lemmas about them.
- `Provider` (provider.dfy): `Provide` as a method on the injector state. Its
  key choice and argument choice are specified by the functions `BindingKey`
  and `ConstructorArgs`.
- `Injection` (injection.dfy): key derivation `DeriveKey`, the installed
  getter as a value `Accessor(key, canFail)` stored in a `Target` (the consuming
  class's prototype), and `Read`, which resolves the accessor's key against the
  registry as it is at that moment.

Each source file's exceptions are modelled as `Err`/`Fail` results. A thrown
exception keeps whatever state changes came before it, and the model keeps
them too. `register` and `resolve` call `setupGlobal` before they can throw.
`Provide` attaches its metadata before registering. `Inject` logs its debug line
before the not-a-provider check.

The scenario methods `RegistryScenario`, `InjectionScenario`,
`FailureScenario` and `LazyReadScenario` are clients that follow the
repository's test file (test/injector.test.ts). Their assertions follow from
the method contracts alone.

## Model

| member | source | states |
|---|---|---|
| Registry.RegisterResult | src/module/injector.ts:24-32 | registration fails exactly when the key is present and `overwrite` is false, with the duplicate-key error; on success the key set gains the key and the key maps to the given value |
| Registry.KeyOrder | src/module/injector.ts:30 | setting a key keeps the key list free of repeats; its keys are the old ones plus the set key; a key already present keeps its place |
| Registry.ResolveResult | src/module/injector.ts:43-51 | resolve fails exactly when the key is absent and `canFail` is false, with the unknown-key error; it returns null exactly when the key is absent; a present key yields its stored value unchanged |
| Registry.RegisterThenResolve | src/module/injector.ts:24-51 | after a successful register, resolving that key yields the new value, and every other key resolves as before |
| Registry.OverwriteKeepsKeys | src/module/injector.ts:27-30 | register with `overwrite` on a present key succeeds and leaves the key set and the registry size unchanged |
| Registry.DistinctSize | src/module/injector.ts:60-63 | a key list without repeats has as many elements as it has distinct keys |
| Registry.ListCountsEntries | src/module/injector.ts:60-63 | when the key list names each registry key exactly once, `list()` has exactly as many keys as the registry has entries |
| Registry.Injector.constructor | src/module/injector.ts:9-12 | at start there is no global map, no entry, no metadata, no trace, and debug is off |
| Registry.Injector.SetupGlobal | src/module/injector.ts:68-72 | afterwards the map exists; an existing map keeps its contents, so a second call changes nothing |
| Registry.Injector.Register | src/module/injector.ts:24-32 | the new entries, key list and result are those of `RegisterResult` and `KeyOrder`, and a duplicate leaves both unchanged; one `Registering` trace line is written when debug is on, failure or not |
| Registry.Injector.Resolve | src/module/injector.ts:43-51 | the result is `ResolveResult` of the current entries; entries and key list are unchanged; one `Resolving` trace line is written when debug is on |
| Registry.Injector.List | src/module/injector.ts:60-63 | the keys returned are the key list in insertion order, each key once, exactly the registry's domain, as many as there are entries; nothing changes |
| Registry.Injector.Debug | src/module/injector.ts:79-81 | the debug flag becomes the given status; by its frame, nothing else changes |
| Registry.Injector.IsDebug | src/module/injector.ts:88-90 | returns the current debug flag and changes nothing |
| Provider.BindingKey | src/decorator/provide.ts:18 | the binding key is the given name when it is non-empty; an absent or empty name gives the class's own name |
| Provider.ConstructorArgs | src/decorator/provide.ts:31-35 | the instance gets the given argument list; an absent list (and so also an empty one) means no arguments |
| Provider.Provide | src/decorator/provide.ts:14-37 | both metadata entries are set unconditionally, even when registration then fails; exactly the instance built from the class and its arguments is registered under the binding key, with the overwrite flag passed through with absent meaning false; a collision without overwrite gives the duplicate-key error and leaves the registry unchanged; with debug on, the provide line comes before the register line |
| Provider.ProvidedInstanceResolves | src/decorator/provide.ts:31-35 | after a successful binding, resolving the binding key yields the constructed instance |
| Injection.DeriveKey | src/decorator/inject.ts:17-30 | a non-empty provider key of the declared class wins over any given name; the name is used only when that metadata is absent or empty; with neither it is the not-a-provider error; a derived key is never empty |
| Injection.Inject | src/decorator/inject.ts:13-44 | the accessor's key is `DeriveKey` of the declared class's metadata and the name, and its `canFail` is the flag with absent meaning false; whether it fails does not depend on `canFail`; on failure nothing is installed; it neither reads nor writes the registry (by its frame), so a key unknown at definition is accepted |
| Injection.Read | src/decorator/inject.ts:34-38 | every read returns `ResolveResult` of the registry as it is at that read, so with `canFail` a missing key yields null; the registry is unchanged |
| Injection.ReadSeesOverwrite | src/decorator/inject.ts:36-37 | a read after an overwrite of the accessor's key yields the new value, whatever was there before |
| Injection.ProvidedClassInjects | src/decorator/inject.ts:17-18 | a class bound by `Provide` with a non-empty binding key, injected with or without a name, derives its binding key, and a read yields the instance it registered |
| Injection.EmptyBindingKeyNotInjectable | src/decorator/inject.ts:27-28 | a class provided without a name whose own name is empty gets empty metadata, which counts as none, so injecting it by type fails with the not-a-provider error |

## Left out

- The text of the `console.log` diagnostics: each one is modelled as a `TraceLine` value appended to the injector's trace while debug is on. The logged instance and class objects are not in it.
- `reflect-metadata` and the `design:type` metadata the TypeScript compiler emits: metadata is a side table on the injector, and `Inject` takes the declared class as an explicit argument. Looking metadata up along the prototype chain is not modelled.
- `Object.defineProperty` details (`enumerable`, `configurable`, `target.name`): the injected property is an entry of a map from property name to `Accessor`, and a second definition replaces the first.
- User constructors: instance construction is a function parameter `construct(cls, args)`. Object identity and fresh allocation by `new` are not modelled, and neither are side effects of a constructor.
- The split between the global `injectorRegistry` map and the static `debugMode` field: both are fields of one `Injector` object. The static `registry` field (src/module/injector.ts:11) is never read by the code, and it is not modelled.
- Values of any JavaScript type: registered values have a type parameter `V`. `null` as a resolve result is `Ok(None)`, so it is kept apart from a registered value.
- Provider.Provide: that exactly one instance is constructed is visible in its body (one `construct` call per branch), but its contract does not state it, because the constructor is a pure function here.
- src/index.ts (re-exports), demo/index.ts (a demo script) and jest.config.ts (test configuration) are not part of this model. There is no concurrency in the system.
