/** The process-wide registry of injectables: a map from key to instance,
    the list of keys in insertion order, the debug flag, and the metadata
    the two annotations attach to classes. */
module Registry {
  import opened Common

  /** One diagnostic line written while debug mode is on. */
  datatype TraceLine =
    | Registering(key: string, overwrite: bool)
    | Resolving(key: string, canFail: bool)
    | Providing(givenName: Option<string>, cls: ClassRef, givenOverwrite: Option<bool>)
    | Injecting(givenName: Option<string>, providingKey: Option<string>, givenCanFail: Option<bool>)

  /** No key occurs twice. */
  ghost predicate Distinct(s: seq<string>)
  {
    forall i, j :: 0 <= i < j < |s| ==> s[i] != s[j]
  }

  /** The key list names every key of the map exactly once. */
  ghost predicate Listed<V>(entries: map<string, V>, order: seq<string>)
  {
    Distinct(order) && forall k :: k in order <==> k in entries
  }

  function SetOf(s: seq<string>): set<string>
  {
    set k | k in s
  }

  /** The map after `register(key, value, overwrite)`, or the error it throws. */
  function RegisterResult<V>(entries: map<string, V>, key: string, value: V, overwrite: bool): (r: Result<map<string, V>>)
    ensures r.Err? <==> !overwrite && key in entries
    ensures r.Err? ==> r.error == DuplicateKey
    ensures r.Ok? ==> r.value.Keys == entries.Keys + {key} && r.value[key] == value
  {
    if !overwrite && key in entries then Err(DuplicateKey) else Ok(entries[key := value])
  }

  /** The key list after `key` is set: a new key goes last, a present one keeps its place. */
  function KeyOrder(order: seq<string>, key: string): (r: seq<string>)
    ensures Distinct(order) ==> Distinct(r)
    ensures forall k :: k in r <==> k in order || k == key
    ensures key in order ==> r == order
  {
    if key in order then order else order + [key]
  }

  /** What `resolve(key, canFail)` returns (None is `null`), or the error it throws. */
  function ResolveResult<V>(entries: map<string, V>, key: string, canFail: bool): (r: Result<Option<V>>)
    ensures r.Err? <==> key !in entries && !canFail
    ensures r.Err? ==> r.error == UnknownKey
    ensures r.Ok? ==> (r.value.None? <==> key !in entries)
    ensures key in entries ==> r == Ok(Some(entries[key]))
  {
    if key !in entries then
      if !canFail then Err(UnknownKey) else Ok(None)
    else
      Ok(Some(entries[key]))
  }

  /** The provider key attached to a class, or None when it has none. */
  function MetaKey(providerName: map<ClassRef, string>, cls: ClassRef): Option<string>
  {
    if cls in providerName then Some(providerName[cls]) else None
  }

  /** A registration that succeeds is seen by every later resolve of its key,
      and no other key resolves differently. */
  lemma RegisterThenResolve<V>(entries: map<string, V>, key: string, value: V, overwrite: bool, probe: string, canFail: bool)
    requires RegisterResult(entries, key, value, overwrite).Ok?
    ensures ResolveResult(RegisterResult(entries, key, value, overwrite).value, probe, canFail)
         == if probe == key then Ok(Some(value)) else ResolveResult(entries, probe, canFail)
  {
  }

  /** Overwriting a present key never fails and keeps the key set and its size. */
  lemma OverwriteKeepsKeys<V>(entries: map<string, V>, key: string, value: V)
    requires key in entries
    ensures RegisterResult(entries, key, value, true).Ok?
    ensures RegisterResult(entries, key, value, true).value.Keys == entries.Keys
    ensures |RegisterResult(entries, key, value, true).value| == |entries|
  {
  }

  /** A list without repeats has as many elements as it has distinct keys. */
  lemma {:induction false} DistinctSize(s: seq<string>)
    requires Distinct(s)
    ensures |SetOf(s)| == |s|
  {
    if s != [] {
      var t := s[..|s| - 1];
      assert Distinct(t) by {
        forall i, j | 0 <= i < j < |t| ensures t[i] != t[j] {
          assert t[i] == s[i] && t[j] == s[j];
        }
      }
      DistinctSize(t);
      assert SetOf(s) == SetOf(t) + {s[|s| - 1]} by {
        assert s == t + [s[|s| - 1]];
      }
      assert s[|s| - 1] !in SetOf(t);
    }
  }

  /** `list()` returns as many keys as the registry holds. */
  lemma ListCountsEntries<V>(entries: map<string, V>, order: seq<string>)
    requires Listed(entries, order)
    ensures |order| == |entries|
  {
    assert SetOf(order) == entries.Keys;
    DistinctSize(order);
  }

  class Injector<V> {
    /** Whether the global registry map exists yet. */
    var created: bool
    /** The registry: key to instance. */
    var entries: map<string, V>
    /** The registry's keys in insertion order, as its key iterator yields them. */
    var order: seq<string>
    var debugMode: bool
    /** The `provider:name` metadata of each class. */
    var providerName: map<ClassRef, string>
    /** The `engine:module` metadata of each class. */
    var engineModule: map<ClassRef, string>
    /** The diagnostic lines written so far. */
    var trace: seq<TraceLine>

    ghost predicate Valid()
      reads this
    {
      (!created ==> entries == map[] && order == []) && Listed(entries, order)
    }

    /** The state when the program starts: no registry yet, debug off. */
    constructor ()
      ensures Valid() && !created && !debugMode
      ensures entries == map[] && order == [] && trace == []
      ensures providerName == map[] && engineModule == map[]
    {
      created := false;
      entries := map[];
      order := [];
      debugMode := false;
      providerName := map[];
      engineModule := map[];
      trace := [];
    }

    /** Creates the registry map when none exists; an existing one is kept. */
    method SetupGlobal()
      requires Valid()
      modifies this`created, this`entries, this`order
      ensures Valid() && created
      ensures entries == old(entries) && order == old(order)
    {
      if !created {
        created := true;
        entries := map[];
        order := [];
      }
    }

    method Register(key: string, value: V, overwrite: bool) returns (r: Result<bool>)
      requires Valid()
      modifies this`created, this`entries, this`order, this`trace
      ensures Valid() && created
      ensures trace == old(trace) + if debugMode then [Registering(key, overwrite)] else []
      ensures match RegisterResult(old(entries), key, value, overwrite)
              case Ok(m) => r == Ok(true) && entries == m && order == KeyOrder(old(order), key)
              case Err(e) => r == Err(e) && entries == old(entries) && order == old(order)
    {
      SetupGlobal();
      if debugMode {
        trace := trace + [Registering(key, overwrite)];
      }
      if !overwrite && key in entries {
        r := Err(DuplicateKey);
        return;
      }
      order := KeyOrder(order, key);
      entries := entries[key := value];
      r := Ok(true);
    }

    method Resolve(key: string, canFail: bool) returns (r: Result<Option<V>>)
      requires Valid()
      modifies this`created, this`entries, this`order, this`trace
      ensures Valid() && created
      ensures entries == old(entries) && order == old(order)
      ensures trace == old(trace) + if debugMode then [Resolving(key, canFail)] else []
      ensures r == ResolveResult(entries, key, canFail)
    {
      SetupGlobal();
      if debugMode {
        trace := trace + [Resolving(key, canFail)];
      }
      if key !in entries {
        if !canFail {
          r := Err(UnknownKey);
          return;
        }
        r := Ok(None);
        return;
      }
      r := Ok(Some(entries[key]));
    }

    /** The registered keys, each once, in insertion order. */
    method List() returns (keys: seq<string>)
      requires Valid()
      modifies this`created, this`entries, this`order
      ensures Valid() && created
      ensures entries == old(entries) && order == old(order)
      ensures keys == order
      ensures Distinct(keys) && (forall k :: k in keys <==> k in entries) && |keys| == |entries|
    {
      SetupGlobal();
      keys := order;
      ListCountsEntries(entries, order);
    }

    method Debug(status: bool)
      requires Valid()
      modifies this`debugMode
      ensures Valid() && debugMode == status
    {
      debugMode := status;
    }

    method IsDebug() returns (b: bool)
      ensures b == debugMode
    {
      b := debugMode;
    }
  }

  /** The registry protocol end to end: register, reject a duplicate, overwrite,
      resolve a missing key with and without `canFail`, list, and debug output. */
  method RegistryScenario()
  {
    var inj := new Injector<int>();
    var r := inj.Register("n", 5, false);
    assert r == Ok(true);
    var v := inj.Resolve("n", false);
    assert v == Ok(Some(5));
    r := inj.Register("n", 6, false);
    assert r == Err(DuplicateKey);
    v := inj.Resolve("n", false);
    assert v == Ok(Some(5));
    r := inj.Register("n", 6, true);
    assert r == Ok(true);
    v := inj.Resolve("n", false);
    assert v == Ok(Some(6));
    v := inj.Resolve("missing", true);
    assert v == Ok(None);
    v := inj.Resolve("missing", false);
    assert v == Err(UnknownKey);
    var keys := inj.List();
    assert keys == ["n"];
    assert inj.trace == [];
    inj.Debug(true);
    var d := inj.IsDebug();
    assert d;
    r := inj.Register("debug_output", 1, false);
    assert |inj.trace| == 1;
  }
}
