/**
 * Callers of ConfigStore that replay call sequences of the store's test suite and prove the outcomes
 * those tests assert, from the method contracts alone.
 */
module ConfigureScenarios {
  import opened Values
  import opened Paths
  import opened Tree
  import opened Engines
  import opened Configure
  import opened ConfigureProperties

  /** The tree the consume test builds: only P = {a: va, b: vb}. */
  function TwoChildren(p: string, a: string, b: string, va: Value, vb: Value): map<string, Value> {
    Insert(map[], Split(p), Map(map[a := va, b := vb]))
  }

  /** In that tree P.a reads va. */
  lemma ConsumeFactsBefore(p: string, a: string, b: string, va: Value, vb: Value)
    requires p != "" && Plain(a) && a != b
    ensures ReadPath(TwoChildren(p, a, b, va, vb), Some(p + "." + a)) == va
  {
    WriteThenReadBeneath(map[], p, Map(map[a := va, b := vb]), a);
    assert Split(a) == [a];
  }

  /** After consuming P.a, P.b still reads vb and P holds {b: vb} only. */
  lemma ConsumeFactsAfter(p: string, a: string, b: string, va: Value, vb: Value)
    requires p != "" && Plain(a) && Plain(b) && a != b
    ensures ReadPath(Remove(TwoChildren(p, a, b, va, vb), Split(p + "." + a)), Some(p + "." + b)) == vb
    ensures ReadPath(Remove(TwoChildren(p, a, b, va, vb), Split(p + "." + a)), Some(p)) == Map(map[b := vb])
  {
    var children := map[a := va, b := vb];
    var t1 := TwoChildren(p, a, b, va, vb);
    WriteThenRead(map[], p, Map(children));
    WriteThenReadBeneath(map[], p, Map(children), b);
    assert Split(b) == [b];
    ConsumeChildLeavesRest(t1, p, a, children);
    SiblingPaths(p, a, b);
    DeleteKeepsOthers(t1, p + "." + a, p + "." + b);
    assert children - {a} == map[b := vb];
  }

  /**
   * consume of a missing key, of a child and then of the parent, and of no path; the test uses
   * P = "Test", a = "key", b = "key2".
   */
  method ConsumeScenario(s: ConfigStore, p: string, a: string, b: string, va: Value, vb: Value, missing: string)
    requires s.Valid()
    requires p != "" && Plain(a) && Plain(b) && a != b && missing != ""
    requires va != Null && vb != Null
    modifies s
  {
    var _ := s.Clear();
    var v := s.Consume(Some(missing));
    ClearedReadsNull(missing);
    assert v == Null;

    var _ := s.Write(p, Map(map[a := va, b := vb]));
    assert s.tree == TwoChildren(p, a, b, va, vb);
    ConsumeFactsBefore(p, a, b, va, vb);
    ConsumeFactsAfter(p, a, b, va, vb);

    v := s.Consume(Some(p + "." + a));
    assert v == va;
    assert s.tree == Remove(TwoChildren(p, a, b, va, vb), Split(p + "." + a));
    var r := s.Read(Some(p + "." + b));
    assert r == vb;
    v := s.Consume(Some(p));
    assert v == Map(map[b := vb]);

    v := s.Consume(Some(""));
    assert v == Null;
    v := s.Consume(None);
    assert v == Null;
  }

  /** 0, "0" and false are set; null is not. */
  method CheckingSavedEmptyScenario(s: ConfigStore)
    requires s.Valid()
    modifies s
  {
    var key := "ConfigureTestCase";
    var ok := s.Write(key, Int(0));
    CheckUsesNullIdentity(old(s.tree), key, Int(0));
    var b := s.Check(Some(key));
    assert ok && b;

    ghost var t := s.tree;
    ok := s.Write(key, Null);
    CheckUsesNullIdentity(t, key, Null);
    b := s.Check(Some(key));
    assert ok && !b;

    b := s.Check(Some(""));
    assert !b;
    b := s.Check(None);
    assert !b;
  }

  /** Writing false and then true to `debug` turns display of errors off and on. */
  method DebugSettingDisplayErrorsScenario(s: ConfigStore)
    requires s.Valid()
    modifies s
  {
    var _ := s.Write(DebugKey, Bool(false));
    assert !s.displayErrors;
    var _ := s.Write(DebugKey, Bool(true));
    assert s.displayErrors;
  }

  /** config makes a name configured and listed; drop succeeds once. */
  method EngineSetupScenario(s: ConfigStore, e: Engine)
    requires s.Valid() && "fake_garbage" !in s.engines
    modifies s
  {
    s.Config("test", e);
    var names := s.ConfiguredNames();
    assert "test" in names;
    var b := s.IsConfigured("test");
    assert b;
    b := s.IsConfigured("fake_garbage");
    assert !b;
    var dropped := s.Drop("test");
    assert dropped;
    dropped := s.Drop("test");
    assert !dropped;
  }

  /** clear wipes user keys and the default `debug` entry alike. */
  method ClearScenario(s: ConfigStore)
    requires s.Valid()
    modifies s
  {
    var _ := s.Write("test", Str("value"));
    var ok := s.Clear();
    assert ok;
    var d := s.Read(Some(DebugKey));
    ClearedReadsNull(DebugKey);
    assert d == Null;
    var v := s.Read(Some("test"));
    ClearedReadsNull("test");
    assert v == Null;
  }

  /** A default load of a missing resource fails but leaves the default engine registered. */
  method LoadDefaultConfigScenario(s: ConfigStore)
    requires s.Valid() && DefaultEngineName !in s.engines
    requires "non_existing_configuration_file" !in s.defaultEngine.resources
    modifies s
  {
    var r := s.Load("non_existing_configuration_file", DefaultEngineName, false);
    assert r.Err?;
    var b := s.IsConfigured(DefaultEngineName);
    assert b;
  }

  /** A dump to an engine that is not registered fails and changes nothing. */
  method DumpNoAdapterScenario(s: ConfigStore)
    requires s.Valid() && "does_not_exist" !in s.engines
    modifies s
  {
    var r := s.Dump("test.php", "does_not_exist", []);
    assert r == Err(EngineNotRegistered("does_not_exist"));
  }

  /** A full dump to a registered engine succeeds and hands it the whole tree under the resource name. */
  method DumpScenario(s: ConfigStore, e: Engine)
    requires s.Valid()
    modifies s
  {
    s.Config("test_Engine", e);
    var r := s.Dump("config_test", "test_Engine", []);
    assert r == Ok(true);
    FullDumpIsTree(s.tree, e, "config_test");
    assert ReadResource(s.engines["test_Engine"], "config_test") == Found(s.tree);
  }

  /** A dump of only `Error` hands the engine that key and leaves `debug` out. */
  method DumpPartialScenario(s: ConfigStore, e: Engine)
    requires s.Valid()
    modifies s
  {
    s.Config("test_Engine", e);
    assert Plain("Error");
    var _ := s.Write("Error", Map(map["test" := Str("value")]));
    assert "Error" in s.tree;
    var r := s.Dump("config_test", "test_Engine", ["Error"]);
    assert r == Ok(true);
    var dumped := FilterKeys(s.tree, ["Error"]);
    assert ReadResource(s.engines["test_Engine"], "config_test") == Found(dumped);
    PartialDumpKeepsListed(s.tree, ["Error"], "Error", []);
    PartialDumpLeavesOut(s.tree, ["Error"], DebugKey);
    assert "Error" in dumped && DebugKey !in dumped;
  }

  /** The placeholder token fails the check; any other token passes. */
  method CheckTokenKeyScenario(s: ConfigStore)
    requires s.Valid()
    modifies s
  {
    ghost var t := s.tree;
    var _ := s.Write(TokenKey, Str(TokenPlaceholder));
    TokenCheckAfterWrite(t, Str(TokenPlaceholder));
    var r := s.CheckTokenKey();
    assert r.Fail?;

    t := s.tree;
    var _ := s.Write(TokenKey, Str("valid-token"));
    TokenCheckAfterWrite(t, Str("valid-token"));
    r := s.CheckTokenKey();
    assert r == Pass;
  }
}
