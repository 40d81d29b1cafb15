/**
 * The process-wide configuration store: a tree of values addressed by dot paths, a registry of named
 * engines that resources are loaded from and dumped to, and the display-errors flag that writes to the
 * `debug` key drive.
 */
module Configure {
  import opened Values
  import opened Paths
  import opened Tree
  import opened Engines

  /** The store's failures, each carrying the name it is about. */
  datatype Error =
    | MissingKey(path: string)             // readOrFail on a path that does not resolve
    | NotFound(name: string)               // load from an unregistered engine or a missing resource
    | EngineNotRegistered(name: string)    // dump to an unregistered engine
    | InvalidCredential(path: string)      // checkTokenKey found the shipped placeholder

  datatype Result<+T> = Ok(value: T) | Err(error: Error)

  datatype Outcome = Pass | Fail(error: Error)

  const DebugKey: string := "debug"
  const DefaultEngineName: string := "default"
  const TokenKey: string := "Discord.token"
  const TokenPlaceholder: string := "insert-your-token-here"

  /** The text readOrFail's failure carries. */
  function MissingKeyMessage(path: string): string {
    "Expected configuration key \"" + path + "\" not found"
  }

  predicate Contains(s: string, t: string) {
    exists i :: 0 <= i <= |s| - |t| && s[i..][..|t|] == t
  }

  /** Every top-level key of `m` is a single path segment. */
  predicate PlainKeys(m: map<string, Value>) {
    forall k :: k in m ==> Plain(k)
  }

  /** The top-level keys that writing the entries of a map under `ks` touches: the first segment of each. */
  function Heads(ks: set<string>): set<string> {
    set k | k in ks :: Split(k)[0]
  }

  predicate Distinct(s: seq<string>) {
    forall i, j :: 0 <= i < j < |s| ==> s[i] != s[j]
  }

  /** What `read(path)` returns: the whole tree for no path or an empty one, else the resolved value. */
  function ReadPath(t: map<string, Value>, path: Option<string>): Value {
    match path
    case None => Map(t)
    case Some(s) => if s == "" then Map(t) else At(Map(t), Split(s))
  }

  /** What `check(path)` returns: a non-empty path whose value is not null (0, "0" and false count). */
  predicate CheckPath(t: map<string, Value>, path: Option<string>) {
    path.Some? && path.value != "" && ReadPath(t, path) != Null
  }

  /** The display-errors flag after writing the entries of `m`: set from a non-null `debug` entry. */
  function DebugFlag(flag: bool, m: map<string, Value>): bool {
    if DebugKey in m && m[DebugKey] != Null then Truthy(m[DebugKey]) else flag
  }

  /** What `load` hands to `write`: the loaded data itself, or the tree deep-merged with it. */
  function LoadValues(t: map<string, Value>, data: map<string, Value>, merge: bool): map<string, Value> {
    if merge then Merge(t, data) else data
  }

  /** The tree after a load of dot-free top-level keys: top-level replacement, or the deep merge. */
  function Loaded(t: map<string, Value>, data: map<string, Value>, merge: bool): map<string, Value> {
    if merge then Merge(t, data) else t + data
  }

  /** The engine a load through `name` reads from, registering the default engine on demand. */
  function EngineFor(engines: map<string, Engine>, name: string, default: Engine): Option<Engine> {
    if name in engines then Some(engines[name])
    else if name == DefaultEngineName then Some(default)
    else None
  }

  /** The outcome of `checkTokenKey` on a tree. */
  function TokenCheck(t: map<string, Value>): Outcome {
    if ReadPath(t, Some(TokenKey)) == Str(TokenPlaceholder) then Fail(InvalidCredential(TokenKey)) else Pass
  }

  /** The registered names in order, with `x` taken out and the order of the rest kept. */
  function Without(s: seq<string>, x: string): (r: seq<string>)
    ensures forall y :: y in r <==> y in s && y != x
    ensures Distinct(s) ==> Distinct(r)
    ensures |r| <= |s|
  {
    if s == [] then []
    else if s[0] == x then Without(s[1..], x)
    else
      var rest := Without(s[1..], x);
      assert Distinct(s) ==> s[0] !in s[1..] && Distinct(s[1..]);
      [s[0]] + rest
  }

  /** The entries of `m` under the keys in `s`. */
  function Restrict(m: map<string, Value>, s: set<string>): map<string, Value>
    requires s <= m.Keys
  {
    map k | k in s :: m[k]
  }

  /** One more dot-free entry written: the tree grows by exactly that entry. */
  lemma RestrictAdd(t0: map<string, Value>, m: map<string, Value>, done: set<string>, k: string)
    requires done <= m.Keys && k in m && PlainKeys(m)
    ensures Insert(t0 + Restrict(m, done), Split(k), m[k]) == t0 + Restrict(m, done + {k})
  {
    assert Split(k) == [k];
  }

  lemma HeadsAdd(a: set<string>, k: string)
    ensures Heads(a + {k}) == Heads(a) + {Split(k)[0]}
  {
  }

  /** What writing the entries of `m` under `done`, in some order, has made of the tree `t0`. */
  ghost predicate WriteProgress(t0: map<string, Value>, t: map<string, Value>, m: map<string, Value>, done: set<string>)
    requires done <= m.Keys
  {
    && t.Keys == t0.Keys + Heads(done)
    && (forall k :: k in t0 && k !in Heads(done) ==> t[k] == t0[k])
    && (PlainKeys(m) ==> t == t0 + Restrict(m, done))
  }

  /** Writing one more entry keeps WriteProgress. */
  lemma WriteStep(t0: map<string, Value>, t: map<string, Value>, m: map<string, Value>, done: set<string>, k: string)
    requires done <= m.Keys && k in m && k !in done
    requires WriteProgress(t0, t, m, done)
    ensures WriteProgress(t0, Insert(t, Split(k), m[k]), m, done + {k})
  {
    HeadsAdd(done, k);
    if PlainKeys(m) {
      RestrictAdd(t0, m, done, k);
    }
  }

  class ConfigStore {
    var tree: map<string, Value>
    var engines: map<string, Engine>
    var engineNames: seq<string>
    var displayErrors: bool
    /** The engine a default load registers when none is registered under the default name. */
    const defaultEngine: Engine

    ghost predicate Valid()
      reads this
    {
      && PlainKeys(tree)
      && Distinct(engineNames)
      && (forall n :: n in engineNames <==> n in engines)
    }

    /** A fresh store: only the `debug` entry, no engines; the flag starts as the environment has it. */
    constructor (debugLevel: nat, initialDisplayErrors: bool, defaultEngine: Engine)
      ensures Valid()
      ensures tree == map[DebugKey := Int(debugLevel)]
      ensures engines == map[] && engineNames == []
      ensures displayErrors == initialDisplayErrors
      ensures this.defaultEngine == defaultEngine
    {
      tree := map[DebugKey := Int(debugLevel)];
      engines := map[];
      engineNames := [];
      displayErrors := initialDisplayErrors;
      this.defaultEngine := defaultEngine;
    }

    /** write(path, value): sets the value at the path; a write to `debug` also sets the flag. */
    method Write(path: string, value: Value) returns (ok: bool)
      requires Valid()
      modifies this
      ensures Valid() && ok
      ensures tree == Insert(old(tree), Split(path), value)
      ensures displayErrors == DebugFlag(old(displayErrors), map[path := value])
      ensures engines == old(engines) && engineNames == old(engineNames)
    {
      tree := Insert(tree, Split(path), value);
      displayErrors := DebugFlag(displayErrors, map[path := value]);
      ok := true;
    }

    /**
     * write(map): writes every entry, its key taken as a path. The entries' order is not modelled, so
     * the exact tree is stated for keys without dots; keys whose first segment no entry names stay.
     */
    method WriteAll(m: map<string, Value>) returns (ok: bool)
      requires Valid()
      modifies this
      ensures Valid() && ok
      ensures tree.Keys == old(tree).Keys + Heads(m.Keys)
      ensures forall k :: k in old(tree) && k !in Heads(m.Keys) ==> tree[k] == old(tree)[k]
      ensures PlainKeys(m) ==> tree == old(tree) + m
      ensures displayErrors == DebugFlag(old(displayErrors), m)
      ensures engines == old(engines) && engineNames == old(engineNames)
    {
      var todo := m.Keys;
      ghost var done: set<string> := {};
      assert Restrict(m, {}) == map[];
      while todo != {}
        invariant todo <= m.Keys && done == m.Keys - todo
        invariant WriteProgress(old(tree), tree, m, done)
        invariant displayErrors == old(displayErrors)
        invariant engines == old(engines) && engineNames == old(engineNames)
        decreases todo
      {
        var k :| k in todo;
        WriteStep(old(tree), tree, m, done, k);
        tree := Insert(tree, Split(k), m[k]);
        todo := todo - {k};
        done := done + {k};
      }
      assert done == m.Keys;
      assert Restrict(m, done) == m;
      displayErrors := DebugFlag(displayErrors, m);
      ok := true;
    }

    /** read(path): the value at the path, Null when it does not resolve, the whole tree for no path. */
    method Read(path: Option<string>) returns (v: Value)
      ensures v == ReadPath(tree, path)
    {
      v := ReadPath(tree, path);
    }

    /** readOrFail(path): the value, or a MissingKey failure naming the path when the key is not set. */
    method ReadOrFail(path: string) returns (r: Result<Value>)
      ensures r.Ok? <==> CheckPath(tree, Some(path))
      ensures r.Ok? ==> r.value == ReadPath(tree, Some(path)) && r.value != Null
      ensures r.Err? ==> r.error == MissingKey(path)
    {
      if !CheckPath(tree, Some(path)) {
        return Err(MissingKey(path));
      }
      r := Ok(ReadPath(tree, Some(path)));
    }

    /** check(path): whether a non-empty path holds a non-null value. */
    method Check(path: Option<string>) returns (b: bool)
      ensures b <==> path.Some? && path.value != "" && ReadPath(tree, path) != Null
    {
      b := CheckPath(tree, path);
    }

    /** delete(path): removes the entry at the path, silently when there is none. */
    method Delete(path: string) returns (ok: bool)
      requires Valid()
      modifies this
      ensures Valid() && ok
      ensures tree == Remove(old(tree), Split(path))
      ensures displayErrors == old(displayErrors)
      ensures engines == old(engines) && engineNames == old(engineNames)
    {
      tree := Remove(tree, Split(path));
      ok := true;
    }

    /** consume(path): returns the value at the path and removes it; no path or no value changes nothing. */
    method Consume(path: Option<string>) returns (v: Value)
      requires Valid()
      modifies this
      ensures Valid()
      ensures v == (if path.None? || path.value == "" then Null else ReadPath(old(tree), path))
      ensures tree == (if v == Null then old(tree) else Remove(old(tree), Split(path.value)))
      ensures displayErrors == old(displayErrors)
      ensures engines == old(engines) && engineNames == old(engineNames)
    {
      if path.None? || path.value == "" {
        return Null;
      }
      v := ReadPath(tree, path);
      if v != Null {
        tree := Remove(tree, Split(path.value));
      }
    }

    /** clear(): empties the tree, the `debug` entry included. */
    method Clear() returns (ok: bool)
      requires Valid()
      modifies this
      ensures Valid() && ok
      ensures tree == map[]
      ensures displayErrors == old(displayErrors)
      ensures engines == old(engines) && engineNames == old(engineNames)
    {
      tree := map[];
      ok := true;
    }

    /** config(name, engine): registers the engine under the name, replacing an earlier one in place. */
    method Config(name: string, engine: Engine)
      requires Valid()
      modifies this
      ensures Valid()
      ensures engines == old(engines)[name := engine]
      ensures engineNames == if name in old(engines) then old(engineNames) else old(engineNames) + [name]
      ensures tree == old(tree) && displayErrors == old(displayErrors)
    {
      if name !in engines {
        engineNames := engineNames + [name];
      }
      engines := engines[name := engine];
    }

    /** configured(name): whether an engine is registered under the name. */
    method IsConfigured(name: string) returns (b: bool)
      requires Valid()
      ensures b <==> name in engines
      ensures b <==> name in engineNames
    {
      b := name in engines;
    }

    /** configured(): the registered names, each once, in the order they were first registered. */
    method ConfiguredNames() returns (names: seq<string>)
      requires Valid()
      ensures forall n :: n in names <==> n in engines
      ensures Distinct(names)
      ensures names == engineNames
    {
      names := engineNames;
    }

    /** drop(name): unregisters the engine; true when there was one. */
    method Drop(name: string) returns (existed: bool)
      requires Valid()
      modifies this
      ensures Valid()
      ensures existed == (name in old(engines))
      ensures engines == old(engines) - {name}
      ensures engineNames == Without(old(engineNames), name)
      ensures tree == old(tree) && displayErrors == old(displayErrors)
    {
      existed := name in engines;
      if existed {
        engines := engines - {name};
        engineNames := Without(engineNames, name);
      } else {
        assert name !in engineNames;
        WithoutAbsent(engineNames, name);
      }
    }

    /**
     * load(resource, engine, merge): reads the resource through the named engine (registering the
     * default engine first when the default name is unregistered) and writes what it read, either as
     * it is or deep-merged with the current tree. On a failure the tree and the flag are untouched.
     */
    method Load(resource: string, engineName: string, merge: bool) returns (r: Result<bool>)
      requires Valid()
      modifies this
      ensures Valid()
      ensures var e := EngineFor(old(engines), engineName, defaultEngine);
        && (e.Some? ==> engines == old(engines)[engineName := e.value])
        && (e.None? ==> engines == old(engines))
      ensures engineNames ==
        if engineName !in old(engines) && engineName == DefaultEngineName then old(engineNames) + [engineName]
        else old(engineNames)
      ensures var e := EngineFor(old(engines), engineName, defaultEngine);
        && (e.None? ==> r == Err(NotFound(engineName)))
        && (e.Some? && resource !in e.value.resources ==> r == Err(NotFound(resource)))
        && (e.Some? && resource in e.value.resources ==> r == Ok(true))
      ensures r.Err? ==> tree == old(tree) && displayErrors == old(displayErrors)
      ensures r.Ok? ==>
        var data := EngineFor(old(engines), engineName, defaultEngine).value.resources[resource];
        && displayErrors == DebugFlag(old(displayErrors), LoadValues(old(tree), data, merge))
        && (PlainKeys(data) ==> tree == Loaded(old(tree), data, merge))
        && (!merge ==> forall k :: k in old(tree) && k !in Heads(data.Keys) ==> k in tree && tree[k] == old(tree)[k])
    {
      if engineName !in engines {
        if engineName != DefaultEngineName {
          return Err(NotFound(engineName));
        }
        Config(DefaultEngineName, defaultEngine);
      }
      var got := ReadResource(engines[engineName], resource);
      if got.Missing? {
        return Err(NotFound(resource));
      }
      ghost var before := tree;
      var values := LoadValues(tree, got.data, merge);
      assert merge ==> PlainKeys(got.data) ==> PlainKeys(values);
      var _ := WriteAll(values);
      if merge && PlainKeys(got.data) {
        assert before + values == values;
      }
      r := Ok(true);
    }

    /**
     * dump(resource, engine, keys): hands the tree, cut down to the listed top-level keys when any are
     * listed, to the named engine, which stores it under the resource name.
     */
    method Dump(resource: string, engineName: string, keys: seq<string>) returns (r: Result<bool>)
      requires Valid()
      modifies this
      ensures Valid()
      ensures r.Err? <==> engineName !in old(engines)
      ensures r.Err? ==> r.error == EngineNotRegistered(engineName) && engines == old(engines)
      ensures r.Ok? ==> r.value
      ensures r.Ok? ==> engines == old(engines)[engineName := DumpResource(old(engines)[engineName], resource, FilterKeys(tree, keys))]
      ensures tree == old(tree) && displayErrors == old(displayErrors) && engineNames == old(engineNames)
    {
      if engineName !in engines {
        return Err(EngineNotRegistered(engineName));
      }
      engines := engines[engineName := DumpResource(engines[engineName], resource, FilterKeys(tree, keys))];
      r := Ok(true);
    }

    /** checkTokenKey(): fails when `Discord.token` still holds the shipped placeholder value. */
    method CheckTokenKey() returns (r: Outcome)
      ensures r == TokenCheck(tree)
    {
      r := TokenCheck(tree);
    }
  }

  lemma WithoutAbsent(s: seq<string>, x: string)
    requires x !in s
    ensures Without(s, x) == s
  {
  }
}
